/** The device model (crates/pnio/src/cm/model.rs) and the validation of a Connect request
    against it (crates/pnio/src/cm/connect.rs). Request fields the device only parses and
    stores are left out of the records. */
module Connect {
  import opened Wire
  import opened Status

  // --- device model ----------------------------------------------------------

  datatype SubmoduleModel = SubmoduleModel(subslot: u16, submoduleIdent: u32, inputLen: u16, outputLen: u16)

  datatype SlotModel = SlotModel(slot: u16, moduleIdent: u32, submodules: seq<SubmoduleModel>)

  /** A name of station: at most 240 octets. */
  type StationName = n: Bytes | |n| <= 240

  datatype DeviceModel = DeviceModel(stationName: StationName, mac: Mac, maxAlarmDataLength: u16,
                                     slots: seq<SlotModel>)

  function FindSlot(slots: seq<SlotModel>, slot: u16): (r: Option<SlotModel>)
    ensures r.Some? ==> r.value in slots && r.value.slot == slot
    ensures r.None? ==> forall s <- slots :: s.slot != slot
  {
    if slots == [] then None
    else if slots[0].slot == slot then Some(slots[0])
    else FindSlot(slots[1..], slot)
  }

  function FindSubmodule(sms: seq<SubmoduleModel>, subslot: u16): (r: Option<SubmoduleModel>)
    ensures r.Some? ==> r.value in sms && r.value.subslot == subslot
    ensures r.None? ==> forall s <- sms :: s.subslot != subslot
  {
    if sms == [] then None
    else if sms[0].subslot == subslot then Some(sms[0])
    else FindSubmodule(sms[1..], subslot)
  }

  /** The submodule plugged at `(slot, subslot)`, if any. */
  function Find(model: DeviceModel, slot: u16, subslot: u16): Option<SubmoduleModel> {
    match FindSlot(model.slots, slot)
    case None => None
    case Some(s) => FindSubmodule(s.submodules, subslot)
  }

  // --- the request -----------------------------------------------------------

  datatype ArBlockReq = ArBlockReq(arType: u16, arUuid: Uuid, sessionKey: u16, initiatorMac: Mac,
                                   initiatorObjectUuid: Uuid, activityTimeoutFactor: u16)

  datatype IocrObject = IocrObject(slot: u16, subslot: u16, frameOffset: u16)

  datatype IocrApi = IocrApi(ioData: seq<IocrObject>, iocs: seq<IocrObject>)

  datatype IocrBlockReq = IocrBlockReq(iocrType: u16, reference: u16, frameId: u16, dataLength: u16,
                                       sendClockFactor: u16, reductionRatio: u16, watchdogFactor: u16,
                                       dataHoldFactor: u16, apis: seq<IocrApi>)

  datatype ExpectedSubmodule = ExpectedSubmodule(subslot: u16, submoduleIdent: u32,
                                                 inputLen: Option<u16>, outputLen: Option<u16>)

  datatype ExpectedApi = ExpectedApi(slot: u16, moduleIdent: u32, submodules: seq<ExpectedSubmodule>)

  datatype AlarmCrBlockReq = AlarmCrBlockReq(alarmCrType: u16, rtaTimeoutFactor: u16, rtaRetries: u16,
                                             localAlarmReference: u16, maxAlarmDataLength: u16)

  /** `expected` lists the APIs of all ExpectedSubmodule blocks, in request order. */
  datatype ConnectReq = ConnectReq(ar: ArBlockReq, iocrs: seq<IocrBlockReq>, expected: seq<ExpectedApi>,
                                   alarmCr: AlarmCrBlockReq)

  // --- negotiated parameters ---------------------------------------------------

  datatype IocrParams = IocrParams(reference: u16, frameId: u16, dataLength: u16, sendClockFactor: u16,
                                   reductionRatio: u16, watchdogFactor: u16, dataHoldFactor: u16,
                                   ioData: seq<IocrObject>, iocs: seq<IocrObject>)

  datatype ArParams = ArParams(arUuid: Uuid, sessionKey: u16, initiatorMac: Mac, initiatorObjectUuid: Uuid,
                               activityTimeoutFactor: u16, inputCr: IocrParams, outputCr: IocrParams,
                               alarmRefRemote: u16, maxAlarmDataLength: u16, maxAlarmDataLengthRemote: u16,
                               rtaTimeoutFactor: u16, rtaRetries: u16, alarmRefLocal: u16)

  const NIL_UUID: Uuid := [0, 0, 0, 0, 0, 0, 0, 0, 0, 0, 0, 0, 0, 0, 0, 0]
  const FRAME_ID_DEVICE_SELECTS: u16 := 0xFFFF

  predicate FrameIdInRange(id: u16) { 0x8000 <= id <= 0xBBFF }

  function ParamsOf(cr: IocrBlockReq): IocrParams {
    var (ioData, iocs) := if cr.apis == [] then ([], []) else (cr.apis[0].ioData, cr.apis[0].iocs);
    IocrParams(cr.reference, cr.frameId, cr.dataLength, cr.sendClockFactor, cr.reductionRatio,
               cr.watchdogFactor, cr.dataHoldFactor, ioData, iocs)
  }

  function SelectFrom(id: u16, inputFrameId: u16): u16
    decreases 0xBBFF - id
  {
    if id > 0xBBFF then 0x8001 else if id != inputFrameId then id else SelectFrom(id + 1, inputFrameId)
  }

  /** A FrameID in range that differs from the Input CR's. */
  function SelectOutputFrameId(inputFrameId: u16): (id: u16)
    ensures FrameIdInRange(id) && id != inputFrameId
    ensures id == if inputFrameId == 0x8001 then 0x8002 else 0x8001
  {
    SelectFrom(0x8001, inputFrameId)
  }

  // --- validation ------------------------------------------------------------

  function FindIocr(crs: seq<IocrBlockReq>, ty: u16): (r: Option<IocrBlockReq>)
    ensures r.Some? ==> r.value in crs && r.value.iocrType == ty
    ensures r.None? ==> forall c <- crs :: c.iocrType != ty
  {
    if crs == [] then None
    else if crs[0].iocrType == ty then Some(crs[0])
    else FindIocr(crs[1..], ty)
  }

  function ModelLen(sm: SubmoduleModel, isOutput: bool): u16 {
    if isOutput then sm.outputLen else sm.inputLen
  }

  predicate DataFits(o: IocrObject, model: DeviceModel, isOutput: bool, dataLength: u16) {
    var sm := Find(model, o.slot, o.subslot);
    sm.Some? && o.frameOffset + ModelLen(sm.value, isOutput) + 1 <= dataLength
  }

  /** The status a CR is refused with, if it is refused. */
  function CheckIocr(cr: IocrBlockReq, model: DeviceModel, isOutput: bool): Option<PnioStatus> {
    if |cr.apis| != 1 then Some(ConnectReject(IOCR_BLOCK, 15))
    else if !(forall o <- cr.apis[0].ioData :: DataFits(o, model, isOutput, cr.dataLength))
         || !(forall o <- cr.apis[0].iocs :: o.frameOffset + 1 <= cr.dataLength)
    then Some(ConnectReject(IOCR_BLOCK, 5))
    else None
  }

  function Len(d: Option<u16>): u16 { if d.Some? then d.value else 0 }

  function CheckSubmodules(sms: seq<ExpectedSubmodule>, slot: u16, model: DeviceModel): Option<PnioStatus> {
    if sms == [] then None
    else
      match Find(model, slot, sms[0].subslot)
      case None => Some(ConnectReject(EXPECTED_SUBMODULE, 7))
      case Some(m) =>
        if m.submoduleIdent != sms[0].submoduleIdent then Some(ConnectReject(EXPECTED_SUBMODULE, 6))
        else if m.inputLen != Len(sms[0].inputLen) || m.outputLen != Len(sms[0].outputLen)
        then Some(ConnectReject(EXPECTED_SUBMODULE, 7))
        else CheckSubmodules(sms[1..], slot, model)
  }

  function CheckExpected(apis: seq<ExpectedApi>, model: DeviceModel): Option<PnioStatus> {
    if apis == [] then None
    else
      var s := FindSlot(model.slots, apis[0].slot);
      if s.Some? && s.value.moduleIdent != apis[0].moduleIdent then Some(ConnectReject(EXPECTED_SUBMODULE, 4))
      else
        match CheckSubmodules(apis[0].submodules, apis[0].slot, model)
        case Some(e) => Some(e)
        case None => CheckExpected(apis[1..], model)
  }

  function Validate(req: ConnectReq, model: DeviceModel): Result<ArParams, PnioStatus> {
    if req.ar.arType != 1 then Err(ConnectReject(AR_BLOCK, 1))
    else if req.ar.arUuid == NIL_UUID then Err(ConnectReject(AR_BLOCK, 2))
    else if |req.iocrs| != 2 then Err(ConnectReject(IOCR_BLOCK, 1))
    else
      match (FindIocr(req.iocrs, 1), FindIocr(req.iocrs, 2))
      case (Some(input), Some(output)) =>
        if !FrameIdInRange(input.frameId) then Err(ConnectReject(IOCR_BLOCK, 6))
        else if !FrameIdInRange(output.frameId) && output.frameId != FRAME_ID_DEVICE_SELECTS
        then Err(ConnectReject(IOCR_BLOCK, 6))
        else if CheckExpected(req.expected, model).Some? then Err(CheckExpected(req.expected, model).value)
        else if CheckIocr(input, model, false).Some? then Err(CheckIocr(input, model, false).value)
        else if CheckIocr(output, model, true).Some? then Err(CheckIocr(output, model, true).value)
        else if req.alarmCr.alarmCrType != 1 then Err(ConnectReject(ALARM_CR, 1))
        else
          var out := ParamsOf(output);
          var outputCr := if output.frameId == FRAME_ID_DEVICE_SELECTS
                          then out.(frameId := SelectOutputFrameId(input.frameId)) else out;
          Ok(ArParams(req.ar.arUuid, req.ar.sessionKey, req.ar.initiatorMac, req.ar.initiatorObjectUuid,
                      req.ar.activityTimeoutFactor, ParamsOf(input), outputCr,
                      req.alarmCr.localAlarmReference, model.maxAlarmDataLength,
                      req.alarmCr.maxAlarmDataLength, req.alarmCr.rtaTimeoutFactor, req.alarmCr.rtaRetries, 0))
      case _ => Err(ConnectReject(IOCR_BLOCK, 1))
  }

  // --- what acceptance means ---------------------------------------------------

  /** The plugged submodule is the one the controller expects. */
  predicate Plugged(e: ExpectedSubmodule, slot: u16, model: DeviceModel) {
    var m := Find(model, slot, e.subslot);
    && m.Some? && m.value.submoduleIdent == e.submoduleIdent
    && m.value.inputLen == Len(e.inputLen) && m.value.outputLen == Len(e.outputLen)
  }

  predicate ExpectedMatches(api: ExpectedApi, model: DeviceModel) {
    && (FindSlot(model.slots, api.slot).Some? ==> FindSlot(model.slots, api.slot).value.moduleIdent == api.moduleIdent)
    && forall e <- api.submodules :: Plugged(e, api.slot, model)
  }

  predicate CrAcceptable(cr: IocrBlockReq, model: DeviceModel, isOutput: bool) {
    && |cr.apis| == 1
    && (forall o <- cr.apis[0].ioData :: DataFits(o, model, isOutput, cr.dataLength))
    && (forall o <- cr.apis[0].iocs :: o.frameOffset < cr.dataLength)
  }

  /** One Input and one Output CR, in either order, plus the AR, alarm and submodule conditions. */
  ghost predicate Acceptable(req: ConnectReq, model: DeviceModel) {
    && req.ar.arType == 1 && req.ar.arUuid != NIL_UUID && req.alarmCr.alarmCrType == 1
    && |req.iocrs| == 2
    && (exists i: nat, o: nat | i < 2 && o < 2 && i != o ::
          && req.iocrs[i].iocrType == 1 && req.iocrs[o].iocrType == 2
          && FrameIdInRange(req.iocrs[i].frameId)
          && (FrameIdInRange(req.iocrs[o].frameId) || req.iocrs[o].frameId == FRAME_ID_DEVICE_SELECTS)
          && CrAcceptable(req.iocrs[i], model, false) && CrAcceptable(req.iocrs[o], model, true))
    && forall api <- req.expected :: ExpectedMatches(api, model)
  }

  lemma {:induction false} CheckSubmodulesExact(sms: seq<ExpectedSubmodule>, slot: u16, model: DeviceModel)
    ensures CheckSubmodules(sms, slot, model).None? <==> forall e <- sms :: Plugged(e, slot, model)
  {
    if sms != [] {
      CheckSubmodulesExact(sms[1..], slot, model);
      assert sms[0] in sms && forall e <- sms[1..] :: e in sms;
    }
  }

  lemma {:induction false} CheckExpectedExact(apis: seq<ExpectedApi>, model: DeviceModel)
    ensures CheckExpected(apis, model).None? <==> forall api <- apis :: ExpectedMatches(api, model)
  {
    if apis != [] {
      CheckSubmodulesExact(apis[0].submodules, apis[0].slot, model);
      CheckExpectedExact(apis[1..], model);
      assert apis[0] in apis && forall a <- apis[1..] :: a in apis;
    }
  }

  lemma CheckIocrExact(cr: IocrBlockReq, model: DeviceModel, isOutput: bool)
    ensures CheckIocr(cr, model, isOutput).None? <==> CrAcceptable(cr, model, isOutput)
  {
  }

  lemma FindIocrOfTwo(crs: seq<IocrBlockReq>, i: nat, o: nat)
    requires |crs| == 2 && i < 2 && o < 2 && i != o && crs[i].iocrType == 1 && crs[o].iocrType == 2
    ensures FindIocr(crs, 1) == Some(crs[i]) && FindIocr(crs, 2) == Some(crs[o])
  {
    assert crs == [crs[0], crs[1]];
    assert crs[1..] == [crs[1]];
  }

  /** A request is accepted exactly when every condition holds, whatever order they are checked in. */
  lemma ValidateExact(req: ConnectReq, model: DeviceModel)
    ensures Validate(req, model).Ok? <==> Acceptable(req, model)
  {
    hide Find, FindSlot, CheckSubmodules, CheckExpected, CheckIocr, CrAcceptable, ExpectedMatches, FindIocr;
    CheckExpectedExact(req.expected, model);
    var fi, fo := FindIocr(req.iocrs, 1), FindIocr(req.iocrs, 2);
    if fi.Some? && fo.Some? {
      CheckIocrExact(fi.value, model, false);
      CheckIocrExact(fo.value, model, true);
    }
    if |req.iocrs| == 2 && fi.Some? && fo.Some? {
      var i: nat := if req.iocrs[0] == fi.value then 0 else 1;
      var o: nat := 1 - i;
      assert req.iocrs[i].iocrType == 1 && req.iocrs[o].iocrType == 2;
      FindIocrOfTwo(req.iocrs, i, o);
    }
    if Acceptable(req, model) {
      var i: nat, o: nat :| i < 2 && o < 2 && i != o
          && req.iocrs[i].iocrType == 1 && req.iocrs[o].iocrType == 2
          && FrameIdInRange(req.iocrs[i].frameId)
          && (FrameIdInRange(req.iocrs[o].frameId) || req.iocrs[o].frameId == FRAME_ID_DEVICE_SELECTS)
          && CrAcceptable(req.iocrs[i], model, false) && CrAcceptable(req.iocrs[o], model, true);
      FindIocrOfTwo(req.iocrs, i, o);
    }
  }

  /** Accepted parameters: both CRs fit their data length, and a device-selected FrameID is usable. */
  lemma ValidatedParams(req: ConnectReq, model: DeviceModel)
    requires Validate(req, model).Ok?
    ensures var p := Validate(req, model).value;
      && (forall o <- p.inputCr.ioData :: DataFits(o, model, false, p.inputCr.dataLength))
      && (forall o <- p.inputCr.iocs :: o.frameOffset < p.inputCr.dataLength)
      && (forall o <- p.outputCr.ioData :: DataFits(o, model, true, p.outputCr.dataLength))
      && (forall o <- p.outputCr.iocs :: o.frameOffset < p.outputCr.dataLength)
      && FrameIdInRange(p.inputCr.frameId) && FrameIdInRange(p.outputCr.frameId)
  {
    hide CheckExpected, Find;
  }

  // --- what is negotiated ------------------------------------------------------

  /** A negotiated CR is the request's, with the FrameID given. */
  predicate Carries(cr: IocrParams, b: IocrBlockReq, frameId: u16) {
    && cr.frameId == frameId && cr.reference == b.reference && cr.dataLength == b.dataLength
    && cr.sendClockFactor == b.sendClockFactor && cr.reductionRatio == b.reductionRatio
    && cr.watchdogFactor == b.watchdogFactor && cr.dataHoldFactor == b.dataHoldFactor
    && |b.apis| == 1 && cr.ioData == b.apis[0].ioData && cr.iocs == b.apis[0].iocs
  }

  /** Every negotiated parameter is the request's own field, whichever order its two CRs come in; what the device
      adds is its alarm reference 0, its own alarm length, and an output FrameID when it is left to the device. */
  lemma NegotiatedFields(req: ConnectReq, model: DeviceModel)
    requires Validate(req, model).Ok?
    ensures var p := Validate(req, model).value;
      && p.arUuid == req.ar.arUuid && p.sessionKey == req.ar.sessionKey && p.initiatorMac == req.ar.initiatorMac
      && p.initiatorObjectUuid == req.ar.initiatorObjectUuid && p.activityTimeoutFactor == req.ar.activityTimeoutFactor
      && p.alarmRefRemote == req.alarmCr.localAlarmReference && p.alarmRefLocal == 0
      && p.rtaTimeoutFactor == req.alarmCr.rtaTimeoutFactor && p.rtaRetries == req.alarmCr.rtaRetries
      && p.maxAlarmDataLengthRemote == req.alarmCr.maxAlarmDataLength && p.maxAlarmDataLength == model.maxAlarmDataLength
      && |req.iocrs| == 2
      && exists i: nat, o: nat | i < 2 && o < 2 && i != o ::
           && req.iocrs[i].iocrType == 1 && req.iocrs[o].iocrType == 2 && Carries(p.inputCr, req.iocrs[i], req.iocrs[i].frameId)
           && Carries(p.outputCr, req.iocrs[o],
                      if req.iocrs[o].frameId != 0xFFFF then req.iocrs[o].frameId
                      else if req.iocrs[i].frameId == 0x8001 then 0x8002 else 0x8001)
  {
    hide CheckExpected, Find, SelectFrom, FindIocr;
    var fi, fo := FindIocr(req.iocrs, 1).value, FindIocr(req.iocrs, 2).value;
    var i: nat := if req.iocrs[0] == fi then 0 else 1;
    var o: nat := 1 - i;
    assert req.iocrs[i].iocrType == 1 && req.iocrs[o].iocrType == 2;
    FindIocrOfTwo(req.iocrs, i, o);
  }

  // --- what a refusal names ------------------------------------------------------

  /** The first of some verdicts that is a refusal. */
  function First(vs: seq<Option<PnioStatus>>): Option<PnioStatus> {
    if vs == [] then None else if vs[0].Some? then vs[0] else First(vs[1..])
  }

  function Unless(ok: bool, block: u8, field: u8): Option<PnioStatus> {
    if ok then None else Some(StatusWord(0xDB, 0x81, block, field))
  }

  /** An expected module: the slot may be empty, but not hold another module. */
  function ModuleVerdict(api: ExpectedApi, model: DeviceModel): Option<PnioStatus> {
    var s := FindSlot(model.slots, api.slot);
    Unless(s.None? || s.value.moduleIdent == api.moduleIdent, 3, 4)
  }

  function SubmoduleVerdict(e: ExpectedSubmodule, slot: u16, model: DeviceModel): Option<PnioStatus> {
    var m := Find(model, slot, e.subslot);
    if m.Some? && m.value.submoduleIdent != e.submoduleIdent then Unless(false, 3, 6)
    else Unless(Plugged(e, slot, model), 3, 7)
  }

  function SubmoduleVerdicts(sms: seq<ExpectedSubmodule>, slot: u16, model: DeviceModel): seq<Option<PnioStatus>> {
    seq(|sms|, i requires 0 <= i < |sms| => SubmoduleVerdict(sms[i], slot, model))
  }

  /** Of everything expected, in request order. */
  function ExpectedVerdicts(apis: seq<ExpectedApi>, model: DeviceModel): seq<Option<PnioStatus>> {
    if apis == [] then []
    else [ModuleVerdict(apis[0], model)] + SubmoduleVerdicts(apis[0].submodules, apis[0].slot, model)
         + ExpectedVerdicts(apis[1..], model)
  }

  function CrVerdict(cr: IocrBlockReq, model: DeviceModel, isOutput: bool): Option<PnioStatus> {
    if |cr.apis| != 1 then Unless(false, 2, 15) else Unless(CrAcceptable(cr, model, isOutput), 2, 5)
  }

  predicate OneOfEach(crs: seq<IocrBlockReq>) {
    |crs| == 2 && ((crs[0].iocrType == 1 && crs[1].iocrType == 2) || (crs[0].iocrType == 2 && crs[1].iocrType == 1))
  }

  function Of(crs: seq<IocrBlockReq>, ty: u16): IocrBlockReq
    requires OneOfEach(crs)
  {
    if crs[0].iocrType == ty then crs[0] else crs[1]
  }

  /** The verdicts on a request, in the order that decides which one is answered: the AR block, the two CRs and their
      FrameIDs, everything expected, what the CRs hold, and the alarm CR. */
  function Verdicts(req: ConnectReq, model: DeviceModel): seq<Option<PnioStatus>> {
    [Unless(req.ar.arType == 1, 1, 1), Unless(req.ar.arUuid != NIL_UUID, 1, 2), Unless(OneOfEach(req.iocrs), 2, 1)]
    + if !OneOfEach(req.iocrs) then []
      else
        var input, output := Of(req.iocrs, 1), Of(req.iocrs, 2);
        [Unless(0x8000 <= input.frameId <= 0xBBFF && (0x8000 <= output.frameId <= 0xBBFF || output.frameId == 0xFFFF), 2, 6)]
        + ExpectedVerdicts(req.expected, model)
        + [CrVerdict(input, model, false), CrVerdict(output, model, true), Unless(req.alarmCr.alarmCrType == 1, 4, 1)]
  }

  lemma {:induction false} FirstConcat(a: seq<Option<PnioStatus>>, b: seq<Option<PnioStatus>>)
    ensures First(a + b) == if First(a).Some? then First(a) else First(b)
    decreases |a|
  {
    if a == [] {
      assert a + b == b;
    } else {
      assert (a + b)[1..] == a[1..] + b;
      FirstConcat(a[1..], b);
    }
  }

  lemma {:induction false} SubmodulesRefused(sms: seq<ExpectedSubmodule>, slot: u16, model: DeviceModel)
    ensures CheckSubmodules(sms, slot, model) == First(SubmoduleVerdicts(sms, slot, model))
    decreases |sms|
  {
    hide Find;
    if sms != [] {
      SubmodulesRefused(sms[1..], slot, model);
      assert SubmoduleVerdicts(sms, slot, model)[1..] == SubmoduleVerdicts(sms[1..], slot, model);
    }
  }

  lemma {:induction false} ExpectedRefused(apis: seq<ExpectedApi>, model: DeviceModel)
    ensures CheckExpected(apis, model) == First(ExpectedVerdicts(apis, model))
    decreases |apis|
  {
    hide FindSlot, CheckSubmodules, SubmoduleVerdicts;
    if apis != [] {
      var api := apis[0];
      ExpectedRefused(apis[1..], model);
      SubmodulesRefused(api.submodules, api.slot, model);
      var vs := SubmoduleVerdicts(api.submodules, api.slot, model);
      FirstConcat([ModuleVerdict(api, model)] + vs, ExpectedVerdicts(apis[1..], model));
      Firsts(ModuleVerdict(api, model), vs);
    }
  }

  /** A request is refused with the first verdict against it, and accepted if there is none. */
  lemma RefusedWith(req: ConnectReq, model: DeviceModel)
    ensures match Validate(req, model)
            case Ok(_) => First(Verdicts(req, model)) == None
            case Err(status) => First(Verdicts(req, model)) == Some(status)
  {
    hide CheckExpected, ExpectedVerdicts, FindIocr, CrAcceptable, CheckIocr;
    var crs := req.iocrs;
    if OneOfEach(crs) {
      var i: nat := if crs[0].iocrType == 1 then 0 else 1;
      FindIocrOfTwo(crs, i, 1 - i);
      ExpectedRefused(req.expected, model);
      CrRefused(crs[i], model, false);
      CrRefused(crs[1 - i], model, true);
    } else if |crs| == 2 {
      NotOneOfEach(crs);
    }
    VerdictsInTurn(req, model);
  }

  lemma CrRefused(cr: IocrBlockReq, model: DeviceModel, isOutput: bool)
    ensures CheckIocr(cr, model, isOutput) == CrVerdict(cr, model, isOutput)
  {
    CheckIocrExact(cr, model, isOutput);
  }

  lemma NotOneOfEach(crs: seq<IocrBlockReq>)
    requires |crs| == 2 && !OneOfEach(crs)
    ensures FindIocr(crs, 1).None? || FindIocr(crs, 2).None?
  {
    assert crs == [crs[0], crs[1]];
  }

  lemma Firsts(a: Option<PnioStatus>, rest: seq<Option<PnioStatus>>)
    ensures First([a] + rest) == if a.Some? then a else First(rest)
  {
    assert ([a] + rest)[1..] == rest;
  }

  /** The verdicts one after the other. */
  lemma VerdictsInTurn(req: ConnectReq, model: DeviceModel)
    ensures First(Verdicts(req, model))
         == if req.ar.arType != 1 then Unless(false, 1, 1)
            else if req.ar.arUuid == NIL_UUID then Unless(false, 1, 2)
            else if !OneOfEach(req.iocrs) then Unless(false, 2, 1)
            else
              var input, output := Of(req.iocrs, 1), Of(req.iocrs, 2);
              if !FrameIdInRange(input.frameId) || !(FrameIdInRange(output.frameId) || output.frameId == FRAME_ID_DEVICE_SELECTS)
              then Unless(false, 2, 6)
              else if First(ExpectedVerdicts(req.expected, model)).Some? then First(ExpectedVerdicts(req.expected, model))
              else if CrVerdict(input, model, false).Some? then CrVerdict(input, model, false)
              else if CrVerdict(output, model, true).Some? then CrVerdict(output, model, true)
              else Unless(req.alarmCr.alarmCrType == 1, 4, 1)
  {
    hide ExpectedVerdicts, CrVerdict, First, StatusWord;
    var a, b, c := Unless(req.ar.arType == 1, 1, 1), Unless(req.ar.arUuid != NIL_UUID, 1, 2), Unless(OneOfEach(req.iocrs), 2, 1);
    FirstThree(a, b, c);
    if OneOfEach(req.iocrs) {
      var input, output := Of(req.iocrs, 1), Of(req.iocrs, 2);
      var d := Unless(0x8000 <= input.frameId <= 0xBBFF && (0x8000 <= output.frameId <= 0xBBFF || output.frameId == 0xFFFF), 2, 6);
      var mid := ExpectedVerdicts(req.expected, model);
      var (e, f, g) := (CrVerdict(input, model, false), CrVerdict(output, model, true), Unless(req.alarmCr.alarmCrType == 1, 4, 1));
      FirstThree(e, f, g);
      FirstConcat([d] + mid, [e, f, g]);
      Firsts(d, mid);
      FirstConcat([a, b, c], [d] + mid + [e, f, g]);
    } else {
      assert [a, b, c] + [] == [a, b, c];
    }
  }

  lemma FirstThree(a: Option<PnioStatus>, b: Option<PnioStatus>, c: Option<PnioStatus>)
    ensures First([a, b, c]) == if a.Some? then a else if b.Some? then b else c
  {
    assert [a, b, c][1..] == [b, c] && [b, c][1..] == [c] && [c][1..] == [];
    assert First([c]) == c;
    assert First([b, c]) == if b.Some? then b else c;
  }
}
