/** The RTC1 cyclic frame (crates/pnio/src/rt/frame.rs). */
module RtFrames {
  import opened Wire

  const TCI_RT: u16 := 0xC000
  const CSDU_MIN := 40
  const APDU_LEN := 4
  const RUN_PRIMARY_VALID_OK: u8 := 0x35
  const RUN_PRIMARY_VALID_PROBLEM: u8 := 0x15

  predicate Primary(status: u8) { status % 2 == 1 }

  predicate DataValid(status: u8) { status / 4 % 2 == 1 }

  predicate ProviderRun(status: u8) { status / 16 % 2 == 1 }

  predicate StationOk(status: u8) { status / 32 % 2 == 1 }

  datatype RtFrame = RtFrame(frameId: u16, csdu: Bytes, cycleCounter: u16, dataStatus: u8, transferStatus: u8)

  datatype FrameError =
    | TooShort(need: nat, have: nat)
    | NotProfinet
    | BufferTooSmall(need: nat, have: nat)

  function FrameLen(csduLen: nat): nat { 18 + 2 + Max(csduLen, CSDU_MIN) + APDU_LEN }

  function ParseRt(frame: Bytes): Result<(EthHeader, RtFrame), FrameError> {
    match ParseEth(frame)
    case None =>
      var off := if |frame| >= 14 && U16At(frame, 12) == ETHERTYPE_VLAN then 18 else 14;
      Err(TooShort(off + 2 + CSDU_MIN + APDU_LEN, |frame|))
    case Some((eth, off)) =>
      if eth.ethertype != ETHERTYPE_PROFINET then Err(NotProfinet)
      else
        var need := off + 2 + CSDU_MIN + APDU_LEN;
        if |frame| < need then Err(TooShort(need, |frame|))
        else
          var apdu := |frame| - APDU_LEN;
          Ok((eth, RtFrame(U16At(frame, off), frame[off + 2..apdu], U16At(frame, apdu),
                           frame[apdu + 2], frame[apdu + 3])))
  }

  /** The C-SDU as it travels: zero-padded to the Ethernet minimum. */
  function Padded(csdu: Bytes): (p: Bytes)
    ensures |p| == Max(|csdu|, CSDU_MIN) && csdu <= p
  {
    csdu + Zeros(Max(CSDU_MIN - |csdu|, 0))
  }

  function Header(dst: Mac, src: Mac): EthHeader { EthHeader(dst, src, Some(TCI_RT), ETHERTYPE_PROFINET) }

  function Apdu(rt: RtFrame): (a: Bytes)
    ensures |a| == APDU_LEN
  {
    Be16(rt.cycleCounter) + [rt.dataStatus, rt.transferStatus]
  }

  function FrameBytes(rt: RtFrame, dst: Mac, src: Mac): (f: Bytes)
    ensures |f| == FrameLen(|rt.csdu|)
  {
    WriteEth(Header(dst, src)) + Be16(rt.frameId) + Padded(rt.csdu) + Apdu(rt)
  }

  /** Fills the caller's buffer; refused when it is too small. */
  method WriteFrame(rt: RtFrame, out: array<u8>, dst: Mac, src: Mac) returns (r: Result<nat, FrameError>)
    modifies out
    ensures r.Ok? <==> out.Length >= FrameLen(|rt.csdu|)
    ensures r.Err? ==> r.error == BufferTooSmall(FrameLen(|rt.csdu|), out.Length) && out[..] == old(out[..])
    ensures r.Ok? ==> r.value == FrameLen(|rt.csdu|)
                      && out[..] == FrameBytes(rt, dst, src) + old(out[FrameLen(|rt.csdu|)..])
  {
    hide Be16, WriteEth;
    var need := FrameLen(|rt.csdu|);
    if out.Length < need { return Err(BufferTooSmall(need, out.Length)); }
    ghost var was := out[..];
    var header := WriteEth(Header(dst, src)) + Be16(rt.frameId);
    assert |header| == 20 by { HeaderLength(dst, src); }
    CopyInto(out, 0, header);
    assert out[..] == header + was[20..];
    var padded := Padded(rt.csdu);
    CopyInto(out, 20, padded);
    assert out[..] == header + padded + was[20 + |padded|..];
    CopyInto(out, 20 + |padded|, Apdu(rt));
    assert out[..] == header + padded + Apdu(rt) + was[need..];
    return Ok(need);
  }

  lemma HeaderLength(dst: Mac, src: Mac)
    ensures |WriteEth(Header(dst, src))| == 18
  {
  }

  /** A written frame parses back: same identifiers and status, the C-SDU zero-padded to 40 bytes. */
  lemma RtRoundTrip(rt: RtFrame, dst: Mac, src: Mac)
    ensures ParseRt(FrameBytes(rt, dst, src)) == Ok((Header(dst, src), rt.(csdu := Padded(rt.csdu))))
  {
    hide U16At, Be16, WriteEth, ParseEth;
    var f, eth, p := FrameBytes(rt, dst, src), Header(dst, src), Padded(rt.csdu);
    HeaderLength(dst, src);
    assert f == WriteEth(eth) + (Be16(rt.frameId) + p + Apdu(rt));
    EthRoundTrip(eth, Be16(rt.frameId) + p + Apdu(rt));
    U16Slice(f, 18, rt.frameId);
    var apdu := |f| - APDU_LEN;
    assert f[apdu..] == Apdu(rt);
    assert f[apdu..apdu + 2] == Be16(rt.cycleCounter);
    U16Slice(f, apdu, rt.cycleCounter);
    assert f[20..apdu] == p;
  }

  /** A written frame, octet by octet. */
  lemma FrameOctets(rt: RtFrame, dst: Mac, src: Mac)
    ensures var f := FrameBytes(rt, dst, src); var end := |f| - 4;
      && end == 20 + Max(|rt.csdu|, 40) && f[..6] == dst && f[6..12] == src
      && U16At(f, 12) == 0x8100 && U16At(f, 14) == 0xC000 && U16At(f, 16) == 0x8892 && U16At(f, 18) == rt.frameId
      && f[20..20 + |rt.csdu|] == rt.csdu && f[20 + |rt.csdu|..end] == Zeros(end - 20 - |rt.csdu|)
      && U16At(f, end) == rt.cycleCounter && f[end + 2] == rt.dataStatus && f[end + 3] == rt.transferStatus
  {
    hide Be16, U16At;
    var f, eth, p := FrameBytes(rt, dst, src), WriteEth(Header(dst, src)), Padded(rt.csdu);
    HeaderLength(dst, src);
    var end := |f| - 4;
    assert f[..18] == eth && f[18..20] == Be16(rt.frameId) && f[20..end] == p && f[end..] == Apdu(rt);
    assert f[12..14] == eth[12..14] == Be16(ETHERTYPE_VLAN) && f[14..16] == eth[14..16] == Be16(TCI_RT);
    assert f[16..18] == eth[16..18] == Be16(ETHERTYPE_PROFINET);
    assert f[..6] == eth[..6] && f[6..12] == eth[6..12];
    U16Slice(f, 12, ETHERTYPE_VLAN);
    U16Slice(f, 14, TCI_RT);
    U16Slice(f, 16, ETHERTYPE_PROFINET);
    U16Slice(f, 18, rt.frameId);
    assert f[20..20 + |rt.csdu|] == p[..|rt.csdu|] && f[20 + |rt.csdu|..end] == p[|rt.csdu|..];
    assert f[end..end + 2] == Be16(rt.cycleCounter) && f[end + 2] == Apdu(rt)[2] && f[end + 3] == Apdu(rt)[3];
    U16Slice(f, end, rt.cycleCounter);
  }
}
