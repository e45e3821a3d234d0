/** The control blocks of PrmEnd, ApplicationReady and Release (crates/pnio/src/cm/control.rs):
    six block types sharing one 26-byte body. */
module Control {
  import opened Wire
  import opened Blocks

  const REQ_PRM_END: u16 := 0x0110
  const REQ_APP_READY: u16 := 0x0112
  const REQ_RELEASE: u16 := 0x0114
  const RES_PRM_END: u16 := 0x8110
  const RES_APP_READY: u16 := 0x8112
  const RES_RELEASE: u16 := 0x8114

  const CMD_PRM_END: u16 := 0x0001
  const CMD_APPLICATION_READY: u16 := 0x0002
  const CMD_DONE: u16 := 0x0008

  const BODY_LEN := 26

  datatype ControlBlock = ControlBlock(blockType: u16, arUuid: Uuid, sessionKey: u16, command: u16,
                                       properties: u16)

  predicate IsControlType(t: u16) {
    t in {REQ_PRM_END, RES_PRM_END, REQ_APP_READY, RES_APP_READY, REQ_RELEASE, RES_RELEASE}
  }

  /** `blocks` starts with the block; anything after it is ignored. */
  function ParseControl(blocks: Bytes): Result<ControlBlock, BlockError> {
    var (header, body) :- ParseBlock(blocks);
    if !IsControlType(header.blockType) then Err(UnexpectedType(REQ_PRM_END, header.blockType))
    else if |body| != BODY_LEN then Err(Malformed)
    else Ok(ControlBlock(header.blockType, body[2..18], U16At(body, 18), U16At(body, 22), U16At(body, 24)))
  }

  function Body(cb: ControlBlock): (b: Bytes)
    ensures |b| == BODY_LEN
  {
    [0, 0] + cb.arUuid + Be16(cb.sessionKey) + [0, 0] + Be16(cb.command) + Be16(cb.properties)
  }

  function WriteControl(cb: ControlBlock): Bytes { WriteHeader(cb.blockType, BODY_LEN) + Body(cb) }

  function PrmEndDone(req: ControlBlock): ControlBlock {
    ControlBlock(RES_PRM_END, req.arUuid, req.sessionKey, CMD_DONE, 0)
  }

  function AppReadyReq(arUuid: Uuid, sessionKey: u16): ControlBlock {
    ControlBlock(REQ_APP_READY, arUuid, sessionKey, CMD_APPLICATION_READY, 0)
  }

  function ReleaseDone(req: ControlBlock): ControlBlock {
    ControlBlock(RES_RELEASE, req.arUuid, req.sessionKey, CMD_DONE, 0)
  }

  lemma ControlRoundTrip(cb: ControlBlock, rest: Bytes)
    ensures ParseControl(WriteControl(cb) + rest)
         == if IsControlType(cb.blockType) then Ok(cb) else Err(UnexpectedType(REQ_PRM_END, cb.blockType))
  {
    hide ParseBlock, WriteHeader, U16At, Be16;
    var b := Body(cb);
    BlockRoundTrip(cb.blockType, b, rest);
    assert b[2..18] == cb.arUuid;
    assert b[18..20] == Be16(cb.sessionKey);
    assert b[22..24] == Be16(cb.command);
    assert b[24..26] == Be16(cb.properties);
    U16Slice(b, 18, cb.sessionKey);
    U16Slice(b, 22, cb.command);
    U16Slice(b, 24, cb.properties);
  }

  /** A printed control block, octet by octet. */
  lemma ControlOctets(cb: ControlBlock)
    ensures var w := WriteControl(cb);
      && |w| == 32 && U16At(w, 0) == cb.blockType && U16At(w, 2) == 28 && w[4] == 1 && w[5] == 0 && w[6..8] == [0, 0]
      && w[8..24] == cb.arUuid && U16At(w, 24) == cb.sessionKey && w[26..28] == [0, 0] && U16At(w, 28) == cb.command
      && U16At(w, 30) == cb.properties
  {
    hide U16At, Be16;
    var w, h, b := WriteControl(cb), WriteHeader(cb.blockType, BODY_LEN), Body(cb);
    assert w[..6] == h && w[6..] == b;
    assert w[0..2] == h[0..2] == Be16(cb.blockType) && w[2..4] == h[2..4] == Be16(28) && w[4] == h[4] && w[5] == h[5];
    assert w[6..8] == b[0..2] && w[8..24] == b[2..18] && w[24..26] == b[18..20] && w[26..28] == b[20..22];
    assert w[28..30] == b[22..24] && w[30..32] == b[24..26];
    U16Slice(w, 0, cb.blockType);
    U16Slice(w, 2, 28);
    U16Slice(w, 24, cb.sessionKey);
    U16Slice(w, 28, cb.command);
    U16Slice(w, 30, cb.properties);
  }

  /** Exactly a block of one of the six types and of 28 octets is read as a control block. */
  lemma ControlAccepted(blocks: Bytes)
    ensures ParseControl(blocks).Ok? <==>
      && BlockShaped(blocks) && U16At(blocks, 2) == 28
      && U16At(blocks, 0) in {0x0110, 0x8110, 0x0112, 0x8112, 0x0114, 0x8114}
  {
    hide ParseBlock;
    BlockAccepted(blocks);
  }
}
