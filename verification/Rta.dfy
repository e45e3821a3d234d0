/** The alarm transport (RTA) frame and the two blocks it carries
    (crates/pnio/src/alarm/rta.rs): parser, printer, and the exact set of PDUs
    the printer and the parser agree on. */
module Rta {
  import opened Wire
  import opened Blocks

  const FRAME_ID_HIGH: u16 := 0xFC01
  const FRAME_ID_LOW: u16 := 0xFE01
  const TCI_HIGH: u16 := 0xC000
  const TCI_LOW: u16 := 0xA000
  const SEQ_INIT: u16 := 0xFFFF
  const SEQ_NONE: u16 := 0xFFFE
  const USI_CHANNEL_DIAG: u16 := 0x8000
  const USI_EXT_CHANNEL_DIAG: u16 := 0x8002

  datatype Priority = High | Low {
    function FrameId(): u16 { if High? then FRAME_ID_HIGH else FRAME_ID_LOW }

    function Tci(): u16 { if High? then TCI_HIGH else TCI_LOW }
  }

  datatype PduType = TData | TNack | TAck | TErr {
    function Code(): u8 {
      match this case TData => 1 case TNack => 2 case TAck => 3 case TErr => 4
    }
  }

  datatype RtaHeader = RtaHeader(dstRef: u16, srcRef: u16, pduType: PduType, tack: bool,
                                 sendSeq: u16, ackSeq: u16)

  datatype AlarmType =
    | Diagnosis | Process | Pull | Plug | Status | Update | Redundancy
    | ControlledBySupervisor | Released | PlugWrongSubmodule | ReturnOfSubmodule
    | DiagnosisDisappears | Other(code: u16)

  datatype AlarmSpecifier = AlarmSpecifier(sequence: u16, channelDiag: bool,
                                           manufacturerDiag: bool, submoduleDiag: bool,
                                           arDiag: bool)

  datatype Maintenance = Fault | Required | Demanded | Qualified

  datatype Specifier = AllDisappear | Appears | Disappears | DisappearsOthersRemain

  datatype ChannelProperties = ChannelProperties(kind: u8, accumulative: bool,
                                                 maintenance: Maintenance,
                                                 specifier: Specifier, direction: u8)

  datatype ChannelDiagnosis = ChannelDiagnosis(channel: u16, properties: ChannelProperties,
                                               errorType: u16)

  datatype ExtChannelDiagnosis = ExtChannelDiagnosis(base: ChannelDiagnosis, extErrorType: u16,
                                                     extAddValue: u32)

  datatype UserData =
    | Channel(diagnosis: ChannelDiagnosis)
    | ExtChannel(ext: ExtChannelDiagnosis)
    | Raw(bytes: Bytes)

  datatype AlarmNotification = AlarmNotification(
    alarmType: AlarmType, api: u32, slot: u16, subslot: u16, moduleIdent: u32,
    submoduleIdent: u32, specifier: AlarmSpecifier, usi: u16, data: UserData)

  datatype AlarmAck = AlarmAck(alarmType: AlarmType, api: u32, slot: u16, subslot: u16,
                               specifier: AlarmSpecifier, status: u32)

  datatype RtaData =
    | Notification(n: AlarmNotification)
    | Ack(a: AlarmAck)
    | Unknown(blockType: u16, body: Bytes)

  datatype RtaBody = BData(data: RtaData) | BAck | BNack | BErr(status: u32)

  datatype RtaPdu = RtaPdu(priority: Priority, header: RtaHeader, body: RtaBody)

  datatype RtaError =
    | EthTooShort
    | NotAlarm
    | FrameTooShort
    | BadPduType(ty: u8)
    | BadRtaVersion(version: u8)
    | BlockFailure(error: BlockError)
    | BadVarPartLen(declared: u16, available: nat)

  // --- bit fields ------------------------------------------------------------

  function AlarmTypeOf(v: u16): AlarmType {
    if v == 1 then Diagnosis else if v == 2 then Process else if v == 3 then Pull
    else if v == 4 then Plug else if v == 5 then Status else if v == 6 then Update
    else if v == 7 then Redundancy else if v == 8 then ControlledBySupervisor
    else if v == 9 then Released else if v == 10 then PlugWrongSubmodule
    else if v == 11 then ReturnOfSubmodule else if v == 12 then DiagnosisDisappears
    else Other(v)
  }

  function AlarmTypeCode(t: AlarmType): u16 {
    match t
    case Diagnosis => 1 case Process => 2 case Pull => 3 case Plug => 4 case Status => 5
    case Update => 6 case Redundancy => 7 case ControlledBySupervisor => 8 case Released => 9
    case PlugWrongSubmodule => 10 case ReturnOfSubmodule => 11 case DiagnosisDisappears => 12
    case Other(v) => v
  }

  /** Bit `mask` (a power of two) of `v`. */
  predicate Bit(v: u16, mask: u16)
    requires mask > 0
  {
    v / mask % 2 == 1
  }

  function Flag(b: bool, mask: u16): u16 { if b then mask else 0 }

  function SpecifierOf(raw: u16): AlarmSpecifier {
    AlarmSpecifier(raw % 0x800, Bit(raw, 0x800), Bit(raw, 0x1000), Bit(raw, 0x2000), Bit(raw, 0x8000))
  }

  function SpecifierCode(s: AlarmSpecifier): u16 {
    s.sequence % 0x800 + Flag(s.channelDiag, 0x800) + Flag(s.manufacturerDiag, 0x1000)
    + Flag(s.submoduleDiag, 0x2000) + Flag(s.arDiag, 0x8000)
  }

  function MaintenanceCode(m: Maintenance): u16 {
    match m case Fault => 0 case Required => 1 case Demanded => 2 case Qualified => 3
  }

  function SpecCode(s: Specifier): u16 {
    match s case AllDisappear => 0 case Appears => 1 case Disappears => 2 case DisappearsOthersRemain => 3
  }

  function PropertiesOf(raw: u16): (p: ChannelProperties)
    ensures p.direction < 8
  {
    var m := raw / 0x200 % 4;
    var s := raw / 0x800 % 4;
    ChannelProperties(
      raw % 0x100, Bit(raw, 0x100),
      if m == 0 then Fault else if m == 1 then Required else if m == 2 then Demanded else Qualified,
      if s == 0 then AllDisappear else if s == 1 then Appears else if s == 2 then Disappears
      else DisappearsOthersRemain,
      raw / 0x2000)
  }

  /** The shift of `direction` by 13 keeps its low three bits only. */
  function PropertiesCode(p: ChannelProperties): u16 {
    p.kind + Flag(p.accumulative, 0x100) + MaintenanceCode(p.maintenance) * 0x200
    + SpecCode(p.specifier) * 0x800 + p.direction % 8 * 0x2000
  }

  // --- printer ---------------------------------------------------------------

  function WriteChannel(d: ChannelDiagnosis): (b: Bytes)
    ensures |b| == 6
  {
    Be16(d.channel) + Be16(PropertiesCode(d.properties)) + Be16(d.errorType)
  }

  function WriteUserData(d: UserData): Bytes {
    match d
    case Channel(c) => WriteChannel(c)
    case ExtChannel(e) => WriteChannel(e.base) + Be16(e.extErrorType) + Be32(e.extAddValue)
    case Raw(bytes) => bytes
  }

  const NOTIFICATION_FIXED := 22

  function WriteNotificationBody(n: AlarmNotification): (b: Bytes)
    ensures |b| == NOTIFICATION_FIXED + |WriteUserData(n.data)|
  {
    Be16(AlarmTypeCode(n.alarmType)) + Be32(n.api) + Be16(n.slot) + Be16(n.subslot)
    + Be32(n.moduleIdent) + Be32(n.submoduleIdent) + Be16(SpecifierCode(n.specifier)) + Be16(n.usi)
    + WriteUserData(n.data)
  }

  function WriteAckBody(a: AlarmAck): (b: Bytes)
    ensures |b| == 16
  {
    Be16(AlarmTypeCode(a.alarmType)) + Be32(a.api) + Be16(a.slot) + Be16(a.subslot)
    + Be16(SpecifierCode(a.specifier)) + Be32(a.status)
  }

  /** Block type and body of a DATA PDU. */
  function DataBlock(d: RtaData, priority: Priority): (u16, Bytes) {
    match d
    case Notification(n) => (if priority.High? then 0x0001 else 0x0002, WriteNotificationBody(n))
    case Ack(a) => (if priority.High? then 0x8001 else 0x8002, WriteAckBody(a))
    case Unknown(blockType, body) => (blockType, body)
  }

  /** The 16-bit length fields can hold the PDU: no printed length wraps. */
  predicate Fits(pdu: RtaPdu) {
    pdu.body.BData? ==> |DataBlock(pdu.body.data, pdu.priority).1| + HEADER_LEN < 0x1_0000
  }

  function WriteVarPart(pdu: RtaPdu): (b: Bytes)
    requires Fits(pdu)
    ensures |b| < 0x1_0000
  {
    match pdu.body
    case BAck => []
    case BNack => []
    case BErr(status) => Be32(status)
    case BData(d) =>
      var (ty, body) := DataBlock(d, pdu.priority);
      WriteHeader(ty, |body|) + body
  }

  function WriteRtaHeader(h: RtaHeader, varPartLen: u16): (b: Bytes)
    ensures |b| == 12
  {
    Be16(h.dstRef) + Be16(h.srcRef) + [0x10 + h.pduType.Code(), if h.tack then 0x11 else 0x01]
    + Be16(h.sendSeq) + Be16(h.ackSeq) + Be16(varPartLen)
  }

  function BuildFrame(dst: Mac, src: Mac, pdu: RtaPdu): Bytes
    requires Fits(pdu)
  {
    var varPart := WriteVarPart(pdu);
    WriteEth(EthHeader(dst, src, Some(pdu.priority.Tci()), ETHERTYPE_PROFINET))
    + Be16(pdu.priority.FrameId()) + WriteRtaHeader(pdu.header, |varPart|) + varPart
  }

  // --- parser ----------------------------------------------------------------

  function ParseRtaHeader(buf: Bytes): Result<(RtaHeader, u16), RtaError> {
    if |buf| < 12 then Err(FrameTooShort)
    else if buf[4] / 16 != 1 then Err(BadRtaVersion(buf[4] / 16))
    else
      var ty := buf[4] % 16;
      if ty < 1 || ty > 4 then Err(BadPduType(ty))
      else
        var pduType := if ty == 1 then TData else if ty == 2 then TNack else if ty == 3 then TAck else TErr;
        Ok((RtaHeader(U16At(buf, 0), U16At(buf, 2), pduType, buf[5] / 16 % 2 == 1,
                      U16At(buf, 6), U16At(buf, 8)),
            U16At(buf, 10)))
  }

  function ParseChannel(b: Bytes): ChannelDiagnosis
    requires |b| >= 6
  {
    ChannelDiagnosis(U16At(b, 0), PropertiesOf(U16At(b, 2)), U16At(b, 4))
  }

  function ParseUserData(usi: u16, b: Bytes): UserData {
    if usi == USI_CHANNEL_DIAG && |b| == 6 then Channel(ParseChannel(b))
    else if usi == USI_EXT_CHANNEL_DIAG && |b| == 12 then
      ExtChannel(ExtChannelDiagnosis(ParseChannel(b), U16At(b, 6), U32At(b, 8)))
    else Raw(b)
  }

  function ParseNotification(b: Bytes): Result<AlarmNotification, BlockError> {
    var have := |b|;
    :- Upto(2, have); :- Upto(6, have); :- Upto(8, have); :- Upto(10, have);
    :- Upto(14, have); :- Upto(18, have); :- Upto(20, have); :- Upto(22, have);
    Ok(NotificationOf(b))
  }

  function NotificationOf(b: Bytes): AlarmNotification
    requires |b| >= NOTIFICATION_FIXED
  {
    AlarmNotification(AlarmTypeOf(U16At(b, 0)), U32At(b, 2), U16At(b, 6), U16At(b, 8),
                      U32At(b, 10), U32At(b, 14), SpecifierOf(U16At(b, 18)), U16At(b, 20),
                      ParseUserData(U16At(b, 20), b[22..]))
  }

  function ParseAck(b: Bytes): Result<AlarmAck, BlockError> {
    var have := |b|;
    :- Upto(2, have); :- Upto(6, have); :- Upto(8, have); :- Upto(10, have);
    :- Upto(12, have); :- Upto(16, have);
    Ok(AckOf(b))
  }

  function AckOf(b: Bytes): AlarmAck
    requires |b| >= 16
  {
    AlarmAck(AlarmTypeOf(U16At(b, 0)), U32At(b, 2), U16At(b, 6), U16At(b, 8),
             SpecifierOf(U16At(b, 10)), U32At(b, 12))
  }

  function ParseData(blockType: u16, body: Bytes): Result<RtaData, BlockError> {
    if blockType == 0x0001 || blockType == 0x0002 then
      var n :- ParseNotification(body);
      Ok(Notification(n))
    else if blockType == 0x8001 || blockType == 0x8002 then
      var a :- ParseAck(body);
      Ok(Ack(a))
    else Ok(Unknown(blockType, body))
  }

  function ParseBody(ty: PduType, varPart: Bytes): Result<RtaBody, RtaError> {
    match ty
    case TAck => Ok(BAck)
    case TNack => Ok(BNack)
    case TErr => if |varPart| < 4 then Err(FrameTooShort) else Ok(BErr(U32At(varPart, 0)))
    case TData =>
      match ParseBlock(varPart)
      case Err(e) => Err(BlockFailure(e))
      case Ok((header, body)) =>
        match ParseData(header.blockType, body)
        case Err(e) => Err(BlockFailure(e))
        case Ok(d) => Ok(BData(d))
  }

  /** Everything after the FrameID. */
  function ParsePdu(priority: Priority, buf: Bytes): Result<RtaPdu, RtaError> {
    var (header, varPartLen) :- ParseRtaHeader(buf);
    var available := |buf| - 12;
    if varPartLen > available then Err(BadVarPartLen(varPartLen, available))
    else
      var body :- ParseBody(header.pduType, buf[12..12 + varPartLen]);
      Ok(RtaPdu(priority, header, body))
  }

  function ParseFrame(frame: Bytes): Result<RtaPdu, RtaError> {
    match ParseEth(frame)
    case None => Err(EthTooShort)
    case Some((eth, off)) =>
      if eth.ethertype != ETHERTYPE_PROFINET then Err(NotAlarm)
      else if |frame| < off + 2 then Err(FrameTooShort)
      else
        var frameId := U16At(frame, off);
        if frameId == FRAME_ID_HIGH then ParsePdu(High, frame[off + 2..])
        else if frameId == FRAME_ID_LOW then ParsePdu(Low, frame[off + 2..])
        else Err(NotAlarm)
  }

  // --- canonical PDUs: the parser's image ------------------------------------

  predicate CanonicalType(t: AlarmType) { t.Other? ==> !(1 <= t.code <= 12) }

  predicate CanonicalData(usi: u16, d: UserData) {
    match d
    case Channel(c) => usi == USI_CHANNEL_DIAG && c.properties.direction < 8
    case ExtChannel(e) => usi == USI_EXT_CHANNEL_DIAG && e.base.properties.direction < 8
    case Raw(b) => !(usi == USI_CHANNEL_DIAG && |b| == 6) && !(usi == USI_EXT_CHANNEL_DIAG && |b| == 12)
  }

  /** The body matches the header's PDU type and no field holds a value its encoding drops. */
  predicate Canonical(pdu: RtaPdu) {
    match pdu.body
    case BAck => pdu.header.pduType.TAck?
    case BNack => pdu.header.pduType.TNack?
    case BErr(_) => pdu.header.pduType.TErr?
    case BData(d) =>
      && pdu.header.pduType.TData?
      && match d
         case Notification(n) =>
           CanonicalType(n.alarmType) && n.specifier.sequence < 0x800 && CanonicalData(n.usi, n.data)
         case Ack(a) => CanonicalType(a.alarmType) && a.specifier.sequence < 0x800
         case Unknown(ty, _) => ty !in {0x0001, 0x0002, 0x8001, 0x8002}
  }

  lemma Digits(q: nat)
    ensures q == q % 2 + 2 * (q / 2 % 4) + 8 * (q / 8 % 4) + 32 * (q / 32)
  {
    var a := q / 2;
    var b := a / 4;
    var c := b / 4;
    assert q == 8 * b + (2 * (a % 4) + q % 2);
    assert q / 8 == b;
    assert q == 32 * c + (8 * (b % 4) + 2 * (a % 4) + q % 2);
    assert q / 32 == c;
  }

  lemma HighOctet(raw: u16)
    ensures var q := raw / 0x100; raw / 0x200 == q / 2 && raw / 0x800 == q / 8 && raw / 0x2000 == q / 32
  {
  }

  lemma PropertiesCodeOf(raw: u16)
    ensures PropertiesCode(PropertiesOf(raw)) == raw
  {
    var q := raw / 0x100;
    Digits(q);
    HighOctet(raw);
    var m, s, d := q / 2 % 4, q / 8 % 4, q / 32;
    var p := PropertiesOf(raw);
    assert MaintenanceCode(p.maintenance) == m;
    assert SpecCode(p.specifier) == s;
    assert p.direction == d < 8;
    assert Flag(p.accumulative, 0x100) == q % 2 * 0x100;
  }

  lemma PropertiesCodeFields(p: ChannelProperties)
    ensures var c := PropertiesCode(p);
      && c % 0x100 == p.kind && Bit(c, 0x100) == p.accumulative
      && c / 0x200 % 4 == MaintenanceCode(p.maintenance)
      && c / 0x800 % 4 == SpecCode(p.specifier)
      && c / 0x2000 == p.direction % 8
  {
    var m, s, a := MaintenanceCode(p.maintenance), SpecCode(p.specifier), if p.accumulative then 1 else 0;
    var c := PropertiesCode(p);
    assert c / 0x100 == a + 2 * m + 8 * s + 32 * (p.direction % 8);
    assert c / 0x200 == m + 4 * s + 16 * (p.direction % 8);
    assert c / 0x800 == s + 4 * (p.direction % 8);
  }

  /** `ChannelProperties` and its 16-bit code are in bijection (three-bit directions). */
  lemma PropertiesBijection(raw: u16, p: ChannelProperties)
    ensures PropertiesCode(PropertiesOf(raw)) == raw
    ensures PropertiesOf(PropertiesCode(p)) == p <==> p.direction < 8
  {
    PropertiesCodeOf(raw);
    PropertiesCodeFields(p);
  }

  /** The specifier code drops bit 14 and sequence bits above the eleventh, nothing else. */
  lemma SpecifierRoundTrip(s: AlarmSpecifier)
    ensures SpecifierOf(SpecifierCode(s)) == s.(sequence := s.sequence % 0x800)
  {
    var c := SpecifierCode(s);
    var k := (if s.channelDiag then 1 else 0) + (if s.manufacturerDiag then 2 else 0)
             + (if s.submoduleDiag then 4 else 0) + (if s.arDiag then 16 else 0);
    assert c == 0x800 * k + s.sequence % 0x800;
    assert c / 0x800 == k && c % 0x800 == s.sequence % 0x800;
    assert c / 0x1000 == k / 2 && c / 0x2000 == k / 4 && c / 0x8000 == k / 16;
  }

  lemma AlarmTypeRoundTrip(t: AlarmType)
    requires CanonicalType(t)
    ensures AlarmTypeOf(AlarmTypeCode(t)) == t
  {
  }

  lemma ChannelRoundTrip(c: ChannelDiagnosis, b: Bytes)
    requires c.properties.direction < 8
    requires WriteChannel(c) <= b
    ensures ParseChannel(b) == c
  {
    U16Slice(b, 0, c.channel);
    U16Slice(b, 2, PropertiesCode(c.properties));
    U16Slice(b, 4, c.errorType);
    PropertiesBijection(0, c.properties);
  }

  lemma UserDataRoundTrip(usi: u16, d: UserData)
    requires CanonicalData(usi, d)
    ensures ParseUserData(usi, WriteUserData(d)) == d
  {
    match d
    case Raw(_) =>
    case Channel(c) =>
      ChannelRoundTrip(c, WriteChannel(c));
    case ExtChannel(e) =>
      var b := WriteUserData(d);
      ChannelRoundTrip(e.base, b);
      U16Slice(b, 6, e.extErrorType);
      U32Slice(b, 8, e.extAddValue);
  }

  lemma NotificationRoundTrip(n: AlarmNotification)
    requires CanonicalType(n.alarmType) && n.specifier.sequence < 0x800 && CanonicalData(n.usi, n.data)
    ensures ParseNotification(WriteNotificationBody(n)) == Ok(n)
  {
    hide Be16, Be32, U16At, U32At, AlarmTypeCode, AlarmTypeOf, SpecifierCode, SpecifierOf;
    hide ParseUserData, WriteUserData;
    var b := WriteNotificationBody(n);
    AlarmTypeRoundTrip(n.alarmType);
    SpecifierRoundTrip(n.specifier);
    UserDataRoundTrip(n.usi, n.data);
    U16Slice(b, 0, AlarmTypeCode(n.alarmType));
    U32Slice(b, 2, n.api);
    U16Slice(b, 6, n.slot);
    U16Slice(b, 8, n.subslot);
    U32Slice(b, 10, n.moduleIdent);
    U32Slice(b, 14, n.submoduleIdent);
    U16Slice(b, 18, SpecifierCode(n.specifier));
    U16Slice(b, 20, n.usi);
    assert b[22..] == WriteUserData(n.data);
  }

  lemma AckRoundTrip(a: AlarmAck)
    requires CanonicalType(a.alarmType) && a.specifier.sequence < 0x800
    ensures ParseAck(WriteAckBody(a)) == Ok(a)
  {
    hide Be16, Be32, U16At, U32At, AlarmTypeCode, AlarmTypeOf, SpecifierCode, SpecifierOf;
    var b := WriteAckBody(a);
    U16Slice(b, 0, AlarmTypeCode(a.alarmType));
    U32Slice(b, 2, a.api);
    U16Slice(b, 6, a.slot);
    U16Slice(b, 8, a.subslot);
    U16Slice(b, 10, SpecifierCode(a.specifier));
    U32Slice(b, 12, a.status);
    AlarmTypeRoundTrip(a.alarmType);
    SpecifierRoundTrip(a.specifier);
  }

  lemma DataRoundTrip(d: RtaData, priority: Priority, header: RtaHeader)
    requires Canonical(RtaPdu(priority, header, BData(d)))
    ensures var (ty, body) := DataBlock(d, priority); ParseData(ty, body) == Ok(d)
  {
    hide WriteNotificationBody, ParseNotification, WriteAckBody, ParseAck;
    match d
    case Notification(n) => NotificationRoundTrip(n);
    case Ack(a) => AckRoundTrip(a);
    case Unknown(_, _) =>
  }

  lemma BodyRoundTrip(pdu: RtaPdu)
    requires Fits(pdu) && Canonical(pdu)
    ensures ParseBody(pdu.header.pduType, WriteVarPart(pdu)) == Ok(pdu.body)
  {
    hide DataBlock, ParseData, ParseBlock, WriteHeader, U32At;
    if pdu.body.BData? {
      var (ty, body) := DataBlock(pdu.body.data, pdu.priority);
      BlockRoundTrip(ty, body, []);
      assert WriteHeader(ty, |body|) + body + [] == WriteHeader(ty, |body|) + body;
      DataRoundTrip(pdu.body.data, pdu.priority, pdu.header);
    } else if pdu.body.BErr? {
      U32Slice(Be32(pdu.body.status), 0, pdu.body.status);
    }
  }

  lemma HeaderRoundTrip(h: RtaHeader, varPart: Bytes)
    requires |varPart| < 0x1_0000
    ensures ParseRtaHeader(WriteRtaHeader(h, |varPart|) + varPart) == Ok((h, |varPart|))
  {
    hide U16At, Be16;
    var b := WriteRtaHeader(h, |varPart|) + varPart;
    assert b[0..2] == Be16(h.dstRef) && b[2..4] == Be16(h.srcRef);
    assert b[4] == 0x10 + h.pduType.Code() && b[5] == if h.tack then 0x11 else 0x01;
    assert b[6..8] == Be16(h.sendSeq) && b[8..10] == Be16(h.ackSeq) && b[10..12] == Be16(|varPart|);
    U16Slice(b, 0, h.dstRef);
    U16Slice(b, 2, h.srcRef);
    U16Slice(b, 6, h.sendSeq);
    U16Slice(b, 8, h.ackSeq);
    U16Slice(b, 10, |varPart|);
  }

  /** The parser inverts the printer on every canonical PDU. */
  lemma FrameRoundTrip(dst: Mac, src: Mac, pdu: RtaPdu)
    requires Fits(pdu) && Canonical(pdu)
    ensures ParseFrame(BuildFrame(dst, src, pdu)) == Ok(pdu)
  {
    hide WriteVarPart, WriteRtaHeader, ParseRtaHeader, ParseBody, Canonical;
    var varPart := WriteVarPart(pdu);
    var eth := EthHeader(dst, src, Some(pdu.priority.Tci()), ETHERTYPE_PROFINET);
    var rta := WriteRtaHeader(pdu.header, |varPart|) + varPart;
    var frame := BuildFrame(dst, src, pdu);
    assert frame == WriteEth(eth) + (Be16(pdu.priority.FrameId()) + rta);
    EthRoundTrip(eth, Be16(pdu.priority.FrameId()) + rta);
    assert frame[20..] == rta;
    HeaderRoundTrip(pdu.header, varPart);
    assert rta[12..12 + |varPart|] == varPart;
    BodyRoundTrip(pdu);
  }

  lemma ParsedBodyIsCanonical(priority: Priority, header: RtaHeader, varPart: Bytes)
    ensures var r := ParseBody(header.pduType, varPart);
      r.Ok? ==> Canonical(RtaPdu(priority, header, r.value))
  {
    hide U16At, U32At, PropertiesOf, ParseBlock;
  }

  /** Whatever the parser accepts is canonical. */
  lemma ParsedIsCanonical(frame: Bytes)
    ensures var r := ParseFrame(frame); r.Ok? ==> Canonical(r.value)
  {
    hide ParseEth, ParseRtaHeader, ParseBody, Canonical;
    var r := ParseFrame(frame);
    if r.Ok? {
      var off := ParseEth(frame).value.1;
      var buf := frame[off + 2..];
      var (header, n) := ParseRtaHeader(buf).value;
      ParsedBodyIsCanonical(r.value.priority, header, buf[12..12 + n]);
    }
  }

  /** Printer and parser agree on exactly the canonical PDUs. */
  lemma FrameRoundTripIff(dst: Mac, src: Mac, pdu: RtaPdu)
    requires Fits(pdu)
    ensures ParseFrame(BuildFrame(dst, src, pdu)) == Ok(pdu) <==> Canonical(pdu)
  {
    ParsedIsCanonical(BuildFrame(dst, src, pdu));
    if Canonical(pdu) { FrameRoundTrip(dst, src, pdu); }
  }

  // --- where the fields stand ------------------------------------------------------------

  /** A printed alarm frame, octet by octet: Ethernet and VLAN headers, FrameID, the twelve octets of the RTA header, and the
      variable part. */
  lemma FrameOctets(dst: Mac, src: Mac, pdu: RtaPdu)
    requires Fits(pdu)
    ensures var f, h, v := BuildFrame(dst, src, pdu), pdu.header, WriteVarPart(pdu);
      && |f| == 32 + |v| && f[..6] == dst && f[6..12] == src
      && U16At(f, 12) == 0x8100 && U16At(f, 14) == (if pdu.priority.High? then 0xC000 else 0xA000) && U16At(f, 16) == 0x8892
      && U16At(f, 18) == (if pdu.priority.High? then 0xFC01 else 0xFE01)
      && U16At(f, 20) == h.dstRef && U16At(f, 22) == h.srcRef
      && f[24] == (match h.pduType case TData => 0x11 case TNack => 0x12 case TAck => 0x13 case TErr => 0x14)
      && f[25] == (if h.tack then 0x11 else 0x01)
      && U16At(f, 26) == h.sendSeq && U16At(f, 28) == h.ackSeq && U16At(f, 30) == |v| && f[32..] == v
  {
    hide Be16, U16At, WriteVarPart;
    var f, h, v := BuildFrame(dst, src, pdu), pdu.header, WriteVarPart(pdu);
    var eth := WriteEth(EthHeader(dst, src, Some(pdu.priority.Tci()), ETHERTYPE_PROFINET));
    var head := WriteRtaHeader(h, |v|);
    assert f == eth + Be16(pdu.priority.FrameId()) + head + v;
    assert |eth| == 18 && f[..18] == eth && f[18..20] == Be16(pdu.priority.FrameId()) && f[20..32] == head && f[32..] == v;
    assert eth[..6] == dst && eth[6..12] == src;
    assert f[12..14] == eth[12..14] == Be16(ETHERTYPE_VLAN) && f[14..16] == eth[14..16] == Be16(pdu.priority.Tci());
    assert f[16..18] == eth[16..18] == Be16(ETHERTYPE_PROFINET);
    U16Slice(f, 12, ETHERTYPE_VLAN);
    U16Slice(f, 14, pdu.priority.Tci());
    U16Slice(f, 16, ETHERTYPE_PROFINET);
    U16Slice(f, 18, pdu.priority.FrameId());
    HeaderOctets(h, |v|);
    assert f[20..22] == head[0..2] && f[22..24] == head[2..4] && f[24] == head[4] && f[25] == head[5];
    assert f[26..28] == head[6..8] && f[28..30] == head[8..10] && f[30..32] == head[10..12];
    U16Slice(f, 20, h.dstRef);
    U16Slice(f, 22, h.srcRef);
    U16Slice(f, 26, h.sendSeq);
    U16Slice(f, 28, h.ackSeq);
    U16Slice(f, 30, |v|);
  }

  lemma HeaderOctets(h: RtaHeader, n: u16)
    ensures var b := WriteRtaHeader(h, n);
      && b[0..2] == Be16(h.dstRef) && b[2..4] == Be16(h.srcRef) && b[4] == 0x10 + h.pduType.Code()
      && b[5] == (if h.tack then 0x11 else 0x01) && b[6..8] == Be16(h.sendSeq) && b[8..10] == Be16(h.ackSeq)
      && b[10..12] == Be16(n)
  {
    hide Be16;
  }

  /** The word of a channel's properties: type in bits 0 to 7, then accumulative, two bits of maintenance, two of specifier
      and three of direction. */
  function PropertiesWord(p: ChannelProperties): int {
    p.kind + (if p.accumulative then 0x100 else 0)
    + 0x200 * (match p.maintenance case Fault => 0 case Required => 1 case Demanded => 2 case Qualified => 3)
    + 0x800 * (match p.specifier case AllDisappear => 0 case Appears => 1 case Disappears => 2 case DisappearsOthersRemain => 3)
    + 0x2000 * p.direction
  }

  /** A printed notification, octet by octet, and the channel diagnosis in it. */
  lemma NotificationOctets(n: AlarmNotification)
    ensures var b := WriteNotificationBody(n); var s := n.specifier;
      && U16At(b, 0) == AlarmTypeCode(n.alarmType) && U32At(b, 2) == n.api && U16At(b, 6) == n.slot && U16At(b, 8) == n.subslot
      && U32At(b, 10) == n.moduleIdent && U32At(b, 14) == n.submoduleIdent
      && U16At(b, 18) == s.sequence % 0x800 + (if s.channelDiag then 0x800 else 0) + (if s.manufacturerDiag then 0x1000 else 0)
                         + (if s.submoduleDiag then 0x2000 else 0) + (if s.arDiag then 0x8000 else 0)
      && U16At(b, 20) == n.usi && b[22..] == WriteUserData(n.data)
    ensures n.data.Channel? && n.data.diagnosis.properties.direction < 8 ==>
      var b, c := WriteNotificationBody(n), n.data.diagnosis;
      && |b| == 28 && U16At(b, 22) == c.channel && U16At(b, 24) == PropertiesWord(c.properties) && U16At(b, 26) == c.errorType
  {
    hide Be16, Be32, U16At, U32At, AlarmTypeCode, WriteUserData, PropertiesCode, PropertiesWord;
    var b := WriteNotificationBody(n);
    U16Slice(b, 0, AlarmTypeCode(n.alarmType));
    U32Slice(b, 2, n.api);
    U16Slice(b, 6, n.slot);
    U16Slice(b, 8, n.subslot);
    U32Slice(b, 10, n.moduleIdent);
    U32Slice(b, 14, n.submoduleIdent);
    U16Slice(b, 18, SpecifierCode(n.specifier));
    U16Slice(b, 20, n.usi);
    assert b[22..] == WriteUserData(n.data);
    if n.data.Channel? && n.data.diagnosis.properties.direction < 8 {
      var c := n.data.diagnosis;
      ChannelOctets(c);
      assert WriteUserData(n.data) == WriteChannel(c) by { JustChannel(c); }
      assert b[22..24] == b[22..][0..2] && b[24..26] == b[22..][2..4] && b[26..28] == b[22..][4..6];
      U16Slice(b, 22, c.channel);
      U16Slice(b, 24, PropertiesCode(c.properties));
      U16Slice(b, 26, c.errorType);
    }
  }

  lemma JustChannel(c: ChannelDiagnosis)
    ensures WriteUserData(Channel(c)) == WriteChannel(c)
  {
  }

  lemma ChannelOctets(c: ChannelDiagnosis)
    requires c.properties.direction < 8
    ensures var w := WriteChannel(c);
      && w[0..2] == Be16(c.channel) && w[2..4] == Be16(PropertiesCode(c.properties)) && w[4..6] == Be16(c.errorType)
      && PropertiesCode(c.properties) == PropertiesWord(c.properties)
  {
    hide Be16;
  }

  /** A printed acknowledgement, octet by octet. */
  lemma AckOctets(a: AlarmAck)
    ensures var b := WriteAckBody(a);
      && U16At(b, 0) == AlarmTypeCode(a.alarmType) && U32At(b, 2) == a.api && U16At(b, 6) == a.slot && U16At(b, 8) == a.subslot
      && U16At(b, 10) == SpecifierCode(a.specifier) && U32At(b, 12) == a.status
  {
    hide Be16, Be32, U16At, U32At, AlarmTypeCode, SpecifierCode;
    var b := WriteAckBody(a);
    U16Slice(b, 0, AlarmTypeCode(a.alarmType));
    U32Slice(b, 2, a.api);
    U16Slice(b, 6, a.slot);
    U16Slice(b, 8, a.subslot);
    U16Slice(b, 10, SpecifierCode(a.specifier));
    U32Slice(b, 12, a.status);
  }

  // --- what is an alarm frame ---------------------------------------------------------------

  /** The block of a DATA is whole, and long enough for what it says it is. */
  predicate DataShaped(v: Bytes) {
    && BlockShaped(v)
    && (U16At(v, 0) == 1 || U16At(v, 0) == 2 ==> Declared(v) >= 22)
    && (U16At(v, 0) == 0x8001 || U16At(v, 0) == 0x8002 ==> Declared(v) >= 16)
  }

  /** After the FrameID: version 1, one of the four types, all of the variable part there, and that well formed. */
  predicate PduShaped(b: Bytes) {
    && |b| >= 12 && b[4] / 16 == 1 && 1 <= b[4] % 16 <= 4 && 12 + U16At(b, 10) <= |b|
    && (b[4] % 16 == 4 ==> U16At(b, 10) >= 4)
    && (b[4] % 16 == 1 ==> DataShaped(b[12..12 + U16At(b, 10)]))
  }

  /** An Ethernet frame, tagged or not, of PROFINET, with one of the two alarm FrameIDs and such a PDU. */
  predicate AlarmShaped(f: Bytes) {
    && |f| >= 14
    && var off := if U16At(f, 12) == 0x8100 then 18 else 14;
       && |f| >= off + 2 && U16At(f, off - 2) == 0x8892 && (U16At(f, off) == 0xFC01 || U16At(f, off) == 0xFE01)
       && PduShaped(f[off + 2..])
  }

  lemma DataAccepted(v: Bytes)
    ensures (ParseBlock(v).Ok? && ParseData(ParseBlock(v).value.0.blockType, ParseBlock(v).value.1).Ok?) <==> DataShaped(v)
  {
    hide ParseBlock, NotificationOf, AckOf, Declared;
    BlockAccepted(v);
  }

  lemma PduAccepted(priority: Priority, b: Bytes)
    ensures ParsePdu(priority, b).Ok? <==> PduShaped(b)
  {
    hide ParseBlock, ParseData, DataShaped, U16At;
    if |b| >= 12 && 12 + U16At(b, 10) <= |b| { DataAccepted(b[12..12 + U16At(b, 10)]); }
  }

  /** Exactly the frames of that shape are read as alarms. */
  lemma FrameAccepted(frame: Bytes)
    ensures ParseFrame(frame).Ok? <==> AlarmShaped(frame)
  {
    hide ParsePdu, PduShaped, U16At;
    if |frame| >= 14 {
      var off := if U16At(frame, 12) == ETHERTYPE_VLAN then 18 else 14;
      if |frame| >= off + 2 {
        PduAccepted(High, frame[off + 2..]);
        PduAccepted(Low, frame[off + 2..]);
      }
    }
  }
}
