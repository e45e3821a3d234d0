/** The blocks of a positive Connect response (crates/pnio/src/cm/connect.rs). */
module ConnectRes {
  import opened Wire
  import opened Blocks
  import opened Connect

  const AR_BLOCK_RES: u16 := 0x8101
  const IOCR_BLOCK_RES: u16 := 0x8102
  const ALARM_CR_BLOCK_RES: u16 := 0x8103
  const AR_SERVER_BLOCK_RES: u16 := 0x8106

  function ArBody(params: ArParams, model: DeviceModel): (b: Bytes)
    ensures |b| == 28
  {
    Be16(1) + params.arUuid + Be16(params.sessionKey) + model.mac + Be16(ETHERTYPE_PROFINET)
  }

  function IocrBody(iocrType: u16, cr: IocrParams): (b: Bytes)
    ensures |b| == 6
  {
    Be16(iocrType) + Be16(cr.reference) + Be16(cr.frameId)
  }

  function AlarmCrBody(maxAlarmDataLength: u16): (b: Bytes)
    ensures |b| == 6
  {
    Be16(1) + Be16(0) + Be16(maxAlarmDataLength)
  }

  /** The name, zero-padded so that the whole block is a multiple of four octets. */
  function ArServerBody(name: StationName): (b: Bytes)
    ensures 2 + |name| <= |b| < 2 + |name| + 4 && (HEADER_LEN + |b|) % 4 == 0
  {
    Be16(|name|) + name + Zeros((4 - (HEADER_LEN + 2 + |name|) % 4) % 4)
  }

  function ResBlocks(params: ArParams, model: DeviceModel): (bs: seq<(u16, Bytes)>)
    ensures forall b <- bs :: |b.1| + 2 < 0x1_0000
  {
    [(AR_BLOCK_RES, ArBody(params, model)),
     (IOCR_BLOCK_RES, IocrBody(1, params.inputCr)),
     (IOCR_BLOCK_RES, IocrBody(2, params.outputCr)),
     (ALARM_CR_BLOCK_RES, AlarmCrBody(model.maxAlarmDataLength)),
     (AR_SERVER_BLOCK_RES, ArServerBody(model.stationName))]
  }

  function BuildConnectRes(params: ArParams, model: DeviceModel): Bytes { WriteAll(ResBlocks(params, model)) }

  /** The fields a controller takes from the response. */
  datatype CrAnswer = CrAnswer(iocrType: u16, reference: u16, frameId: u16)
  datatype Answer = Answer(types: seq<u16>, arType: u16, arUuid: Uuid, sessionKey: u16, mac: Mac, lt: u16, input: CrAnswer,
                           output: CrAnswer, alarmCrType: u16, alarmReference: u16, maxAlarmDataLength: u16, name: Bytes,
                           padding: Bytes)

  function ReadCr(b: Bytes): CrAnswer
    requires |b| >= 6
  {
    CrAnswer(U16At(b, 0), U16At(b, 2), U16At(b, 4))
  }

  /** A controller's reading of the five blocks. */
  function ReadAnswer(blocks: Bytes): Option<Answer> {
    match BlocksFrom(blocks, 0)
    case Err(_) => None
    case Ok(bs) =>
      if |bs| != 5 || |bs[0].1| < 28 || |bs[1].1| < 6 || |bs[2].1| < 6 || |bs[3].1| < 6 || |bs[4].1| < 2 then None
      else
        var (ar, alarm, server) := (bs[0].1, bs[3].1, bs[4].1);
        var name := U16At(server, 0);
        if 2 + name > |server| then None
        else Some(Answer([bs[0].0.blockType, bs[1].0.blockType, bs[2].0.blockType, bs[3].0.blockType, bs[4].0.blockType],
                         U16At(ar, 0), ar[2..18], U16At(ar, 18), ar[20..26], U16At(ar, 26), ReadCr(bs[1].1),
                         ReadCr(bs[2].1), U16At(alarm, 0), U16At(alarm, 2), U16At(alarm, 4),
                         server[2..2 + name], server[2 + name..]))
  }

  /** The controller reads back its own AR and session, the device's address and name, both CRs with their own references
      and the negotiated FrameIDs, and the device's alarm reference 0 and length. */
  lemma ResponseReads(params: ArParams, model: DeviceModel)
    ensures var i, o, n := params.inputCr, params.outputCr, |model.stationName|;
      ReadAnswer(BuildConnectRes(params, model))
      == Some(Answer([0x8101, 0x8102, 0x8102, 0x8103, 0x8106], 1, params.arUuid, params.sessionKey, model.mac, 0x8892,
                     CrAnswer(1, i.reference, i.frameId), CrAnswer(2, o.reference, o.frameId), 1, 0,
                     model.maxAlarmDataLength, model.stationName, Zeros((4 - n % 4) % 4)))
  {
    hide BlocksFrom, WriteAll, U16At, Be16, ArServerBody, ArBody, IocrBody, AlarmCrBody;
    var bs := ResBlocks(params, model);
    ReadAllInvertsWriteAll([], bs);
    assert [] + WriteAll(bs) == WriteAll(bs);
    ArBodyReads(params, model);
    IocrBodyReads(1, params.inputCr);
    IocrBodyReads(2, params.outputCr);
    AlarmCrBodyReads(model.maxAlarmDataLength);
    ArServerBodyReads(model.stationName);
  }

  lemma ArBodyReads(params: ArParams, model: DeviceModel)
    ensures var b := ArBody(params, model);
      && U16At(b, 0) == 1 && b[2..18] == params.arUuid && U16At(b, 18) == params.sessionKey && b[20..26] == model.mac
      && U16At(b, 26) == 0x8892
  {
    hide U16At, Be16;
    var b := ArBody(params, model);
    assert b[0..2] == Be16(1) && b[18..20] == Be16(params.sessionKey) && b[26..28] == Be16(ETHERTYPE_PROFINET);
    U16Slice(b, 0, 1);
    U16Slice(b, 18, params.sessionKey);
    U16Slice(b, 26, ETHERTYPE_PROFINET);
  }

  lemma IocrBodyReads(iocrType: u16, cr: IocrParams)
    ensures ReadCr(IocrBody(iocrType, cr)) == CrAnswer(iocrType, cr.reference, cr.frameId)
  {
    hide U16At, Be16;
    var b := IocrBody(iocrType, cr);
    assert b[0..2] == Be16(iocrType) && b[2..4] == Be16(cr.reference) && b[4..6] == Be16(cr.frameId);
    U16Slice(b, 0, iocrType);
    U16Slice(b, 2, cr.reference);
    U16Slice(b, 4, cr.frameId);
  }

  lemma AlarmCrBodyReads(len: u16)
    ensures var b := AlarmCrBody(len); U16At(b, 0) == 1 && U16At(b, 2) == 0 && U16At(b, 4) == len
  {
    hide U16At, Be16;
    var b := AlarmCrBody(len);
    assert b[0..2] == Be16(1) && b[2..4] == Be16(0) && b[4..6] == Be16(len);
    U16Slice(b, 0, 1);
    U16Slice(b, 2, 0);
    U16Slice(b, 4, len);
  }

  lemma ArServerBodyReads(name: StationName)
    ensures var b := ArServerBody(name);
      U16At(b, 0) == |name| && b[2..2 + |name|] == name && b[2 + |name|..] == Zeros((4 - |name| % 4) % 4)
  {
    hide U16At, Be16;
    var b := ArServerBody(name);
    assert b[0..2] == Be16(|name|);
    U16Slice(b, 0, |name|);
    assert (HEADER_LEN + 2 + |name|) % 4 == |name| % 4;
  }
}
