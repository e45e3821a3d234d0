/** IODWriteReq records, the MultipleWrite container and the write response
    (crates/pnio/src/cm/write.rs). */
module Records {
  import opened Wire
  import opened Blocks

  const WRITE_REQ_HEADER: u16 := 0x0008
  const WRITE_RES_HEADER: u16 := 0x8008
  const INDEX_MULTIPLE_WRITE: u16 := 0xe040

  /** Octets of the fixed part of a record's body. */
  const FIXED := 58
  /** Octets of a record header: block header and fixed body. */
  const RECORD_HEADER := 64

  datatype Record = Record(seqNum: u16, arUuid: Uuid, api: u32, slot: u16, subslot: u16, index: u16,
                           data: Bytes)

  // --- parsing ---------------------------------------------------------------

  /** The record at the start of `buf` and the octets it takes, its data included. */
  function ParseOne(buf: Bytes): (r: Result<(Record, nat), BlockError>)
    ensures r.Ok? ==> RECORD_HEADER <= r.value.1 <= |buf|
  {
    var (header, body) :- ParseBlock(buf);
    if header.blockType != WRITE_REQ_HEADER then Err(UnexpectedType(WRITE_REQ_HEADER, header.blockType))
    else
      :- Upto(2, |body|);
      :- Upto(18, |body|);
      :- Upto(22, |body|);
      :- Upto(24, |body|);
      :- Upto(26, |body|);
      :- Upto(28, |body|);
      :- Upto(30, |body|);
      :- Upto(34, |body|);
      :- Upto(FIXED, |body|);
      var headerEnd := HEADER_LEN + |body|;
      var dataEnd := headerEnd + U32At(body, 30);
      if dataEnd > |buf| then Err(TooShort(dataEnd, |buf|))
      else
        Ok((Record(U16At(body, 0), body[2..18], U32At(body, 18), U16At(body, 22), U16At(body, 24),
                   U16At(body, 28), buf[headerEnd..dataEnd]), dataEnd))
  }

  /** The next multiple of four. */
  function Align4(n: nat): nat { (n + 3) / 4 * 4 }

  /** The records of a container's data from `pos` on. */
  function NestedFrom(data: Bytes, pos: nat): Result<seq<Record>, BlockError>
    decreases |data| - pos
  {
    if pos >= |data| then Ok([])
    else
      var (record, consumed) :- ParseOne(data[pos..]);
      var rest :- NestedFrom(data, Align4(pos + consumed));
      Ok([record] + rest)
  }

  /** The container first when there is one, then its records in order. */
  function ParseWrite(blocks: Bytes): Result<seq<Record>, BlockError> {
    var (outer, _) :- ParseOne(blocks);
    if outer.index != INDEX_MULTIPLE_WRITE then Ok([outer])
    else
      var nested :- NestedFrom(outer.data, 0);
      Ok([outer] + nested)
  }

  method ReadRecords(blocks: Bytes) returns (r: Result<seq<Record>, BlockError>)
    ensures r == ParseWrite(blocks)
  {
    hide ParseOne, Align4;
    var p := ParseOne(blocks);
    if p.Err? { return Err(p.error); }
    var outer := p.value.0;
    var records := [outer];
    if outer.index == INDEX_MULTIPLE_WRITE {
      var data, pos := outer.data, 0;
      ghost var all := ParseWrite(blocks);
      while pos < |data|
        invariant all == match NestedFrom(data, pos) case Ok(rest) => Ok(records + rest) case Err(e) => Err(e)
        decreases |data| - pos
      {
        var q := ParseOne(data[pos..]);
        if q.Err? { return Err(q.error); }
        var (record, consumed) := q.value;
        ghost var was := records;
        records := records + [record];
        AlignBounds(pos + consumed);
        pos := Align4(pos + consumed);
        ghost var rest := NestedFrom(data, pos);
        assert rest.Ok? ==> was + ([record] + rest.value) == records + rest.value;
      }
      assert records + [] == records;
    }
    return Ok(records);
  }

  // --- a printer for the request -----------------------------------------------

  predicate Printable(r: Record) { |r.data| < 0x1_0000_0000 }

  function FixedBody(r: Record, dataLen: u32): (b: Bytes)
    ensures |b| == FIXED
  {
    Be16(r.seqNum) + r.arUuid + Be32(r.api) + Be16(r.slot) + Be16(r.subslot) + [0, 0] + Be16(r.index)
    + Be32(dataLen) + Zeros(24)
  }

  function PrintRecord(r: Record): (b: Bytes)
    requires Printable(r)
    ensures |b| == RECORD_HEADER + |r.data|
  {
    WriteHeader(WRITE_REQ_HEADER, FIXED) + FixedBody(r, |r.data|) + r.data
  }

  function PaddedTo4(b: Bytes): Bytes { b + Zeros(Align4(|b|) - |b|) }

  /** Records back to back, each on a four-octet boundary; `padLast` says whether the last is padded too. */
  function PrintNested(rs: seq<Record>, padLast: bool): Bytes
    requires forall r <- rs :: Printable(r)
  {
    if rs == [] then []
    else if |rs| == 1 && !padLast then PrintRecord(rs[0])
    else PaddedTo4(PrintRecord(rs[0])) + PrintNested(rs[1..], padLast)
  }

  lemma AlignBounds(n: nat)
    ensures n <= Align4(n) < n + 4 && Align4(n) % 4 == 0
  {
  }

  lemma AlignSum(a: nat, n: nat)
    requires a % 4 == 0
    ensures Align4(a + n) == a + Align4(n)
  {
    assert a == a / 4 * 4;
    assert (a + n + 3) / 4 == a / 4 + (n + 3) / 4;
  }

  lemma FixedBodyReads(r: Record, dataLen: u32)
    ensures var b := FixedBody(r, dataLen);
      && U16At(b, 0) == r.seqNum && b[2..18] == r.arUuid && U32At(b, 18) == r.api
      && U16At(b, 22) == r.slot && U16At(b, 24) == r.subslot && U16At(b, 28) == r.index
      && U32At(b, 30) == dataLen
  {
    hide U16At, U32At, Be16, Be32, Zeros;
    var b := FixedBody(r, dataLen);
    assert b[0..2] == Be16(r.seqNum);
    assert b[18..22] == Be32(r.api);
    assert b[22..24] == Be16(r.slot);
    assert b[24..26] == Be16(r.subslot);
    assert b[28..30] == Be16(r.index);
    assert b[30..34] == Be32(dataLen);
    U16Slice(b, 0, r.seqNum);
    U32Slice(b, 18, r.api);
    U16Slice(b, 22, r.slot);
    U16Slice(b, 24, r.subslot);
    U16Slice(b, 28, r.index);
    U32Slice(b, 30, dataLen);
  }

  lemma RecordRoundTrip(r: Record, rest: Bytes)
    requires Printable(r)
    ensures ParseOne(PrintRecord(r) + rest) == Ok((r, RECORD_HEADER + |r.data|))
  {
    hide ParseBlock, WriteHeader, U16At, U32At, FixedBody;
    var body := FixedBody(r, |r.data|);
    var buf := PrintRecord(r) + rest;
    assert buf == WriteHeader(WRITE_REQ_HEADER, FIXED) + body + (r.data + rest);
    BlockRoundTrip(WRITE_REQ_HEADER, body, r.data + rest);
    FixedBodyReads(r, |r.data|);
    assert buf[RECORD_HEADER..RECORD_HEADER + |r.data|] == r.data;
  }

  lemma NestedFirst(data: Bytes, pos: nat, r: Record, used: nat, rest: seq<Record>)
    requires pos < |data| && ParseOne(data[pos..]) == Ok((r, used))
    requires NestedFrom(data, Align4(pos + used)) == Ok(rest)
    ensures NestedFrom(data, pos) == Ok([r] + rest)
  {
    hide ParseOne, Align4;
  }

  lemma NestedEnd(data: Bytes, pos: nat)
    requires pos >= |data|
    ensures NestedFrom(data, pos) == Ok([])
  {
  }

  lemma {:induction false} NestedRoundTrip(pre: Bytes, rs: seq<Record>, padLast: bool)
    requires |pre| % 4 == 0 && forall r <- rs :: Printable(r)
    ensures NestedFrom(pre + PrintNested(rs, padLast), |pre|) == Ok(rs)
    decreases |rs|
  {
    hide ParseOne, PrintRecord, Align4, NestedFrom;
    var data := pre + PrintNested(rs, padLast);
    if rs == [] {
      NestedEnd(data, |pre|);
    } else {
      var first := PrintRecord(rs[0]);
      AlignBounds(|first|);
      AlignSum(|pre|, |first|);
      if |rs| == 1 && !padLast {
        assert data[|pre|..] == first + [];
        RecordRoundTrip(rs[0], []);
        NestedEnd(data, |pre| + Align4(|first|));
        NestedFirst(data, |pre|, rs[0], |first|, []);
        assert rs == [rs[0]] + [];
      } else {
        var tail := PrintNested(rs[1..], padLast);
        var padded := PaddedTo4(first);
        var pad := Zeros(Align4(|first|) - |first|);
        assert data[|pre|..] == first + (pad + tail);
        RecordRoundTrip(rs[0], pad + tail);
        NestedRoundTrip(pre + padded, rs[1..], padLast);
        assert data == pre + padded + tail;
        NestedFirst(data, |pre|, rs[0], |first|, rs[1..]);
        assert rs == [rs[0]] + rs[1..];
      }
    }
  }

  /** A MultipleWrite holding any records parses to the container followed by exactly those records. */
  lemma MultipleWriteRoundTrip(c: Record, rs: seq<Record>, padLast: bool, rest: Bytes)
    requires c.index == INDEX_MULTIPLE_WRITE && forall r <- rs :: Printable(r)
    requires c.data == PrintNested(rs, padLast) && Printable(c)
    ensures ParseWrite(PrintRecord(c) + rest) == Ok([c] + rs)
  {
    hide ParseOne, PrintRecord, PrintNested;
    RecordRoundTrip(c, rest);
    NestedRoundTrip([], rs, padLast);
    assert [] + c.data == c.data;
  }

  lemma SingleWriteRoundTrip(r: Record, rest: Bytes)
    requires r.index != INDEX_MULTIPLE_WRITE && Printable(r)
    ensures ParseWrite(PrintRecord(r) + rest) == Ok([r])
  {
    hide ParseOne, PrintRecord;
    RecordRoundTrip(r, rest);
  }

  // --- the response --------------------------------------------------------------

  function ResBody(r: Record): (b: Bytes)
    ensures |b| == FIXED
  {
    Be16(r.seqNum) + r.arUuid + Be32(r.api) + Be16(r.slot) + Be16(r.subslot) + [0, 0] + Be16(r.index)
    + Be32(0) + Be16(0) + Be16(0) + Be32(0) + Zeros(16)
  }

  /** One response header per record, in request order. */
  function BuildWriteRes(rs: seq<Record>): (b: Bytes)
    ensures |b| == RECORD_HEADER * |rs|
  {
    if rs == [] then []
    else BuildWriteRes(rs[..|rs| - 1]) + (WriteHeader(WRITE_RES_HEADER, FIXED) + ResBody(rs[|rs| - 1]))
  }

  method WriteRes(rs: seq<Record>) returns (out: Bytes)
    ensures out == BuildWriteRes(rs)
  {
    hide ResBody;
    out := [];
    for i := 0 to |rs|
      invariant out == BuildWriteRes(rs[..i])
    {
      assert rs[..i + 1][..i] == rs[..i];
      out := out + (WriteHeader(WRITE_RES_HEADER, FIXED) + ResBody(rs[i]));
    }
    assert rs[..|rs|] == rs;
  }

  /** The i-th 64 octets of the response answer the i-th record: they name it, and report no data and
      status 0. */
  lemma {:induction false} ResponseEchoes(rs: seq<Record>, i: nat)
    requires i < |rs|
    ensures var b := ParseBlock(BuildWriteRes(rs)[RECORD_HEADER * i..]);
      && b.Ok? && b.value.0.blockType == WRITE_RES_HEADER && |b.value.1| == FIXED
      && var f := b.value.1;
         && U16At(f, 0) == rs[i].seqNum && f[2..18] == rs[i].arUuid && U32At(f, 18) == rs[i].api
         && U16At(f, 22) == rs[i].slot && U16At(f, 24) == rs[i].subslot && U16At(f, 28) == rs[i].index
         && U32At(f, 30) == 0 && U32At(f, 38) == 0
  {
    hide ParseBlock, WriteHeader, ResBody, U16At, U32At;
    ResponseSlice(rs, i);
    var tail := BuildWriteRes(rs)[RECORD_HEADER * i..];
    BlockRoundTrip(WRITE_RES_HEADER, ResBody(rs[i]), tail[RECORD_HEADER..]);
    assert tail == WriteHeader(WRITE_RES_HEADER, FIXED) + ResBody(rs[i]) + tail[RECORD_HEADER..];
    ResBodyReads(rs[i]);
  }

  lemma {:induction false} ResponseSlice(rs: seq<Record>, i: nat)
    requires i < |rs|
    ensures BuildWriteRes(rs)[RECORD_HEADER * i..][..RECORD_HEADER]
         == WriteHeader(WRITE_RES_HEADER, FIXED) + ResBody(rs[i])
    decreases |rs|
  {
    hide WriteHeader, ResBody;
    var n := |rs| - 1;
    var init := BuildWriteRes(rs[..n]);
    var last := WriteHeader(WRITE_RES_HEADER, FIXED) + ResBody(rs[n]);
    if i == n {
      assert (init + last)[RECORD_HEADER * i..] == last;
    } else {
      ResponseSlice(rs[..n], i);
      assert (init + last)[RECORD_HEADER * i..] == init[RECORD_HEADER * i..] + last;
    }
  }

  lemma ResBodyReads(r: Record)
    ensures var b := ResBody(r);
      && U16At(b, 0) == r.seqNum && b[2..18] == r.arUuid && U32At(b, 18) == r.api
      && U16At(b, 22) == r.slot && U16At(b, 24) == r.subslot && U16At(b, 28) == r.index
      && U32At(b, 30) == 0 && U32At(b, 38) == 0
  {
    hide U16At, U32At, Be16, Be32, Zeros;
    var b := ResBody(r);
    assert b[0..2] == Be16(r.seqNum);
    assert b[18..22] == Be32(r.api);
    assert b[22..24] == Be16(r.slot);
    assert b[24..26] == Be16(r.subslot);
    assert b[28..30] == Be16(r.index);
    assert b[30..34] == Be32(0) && b[38..42] == Be32(0);
    U16Slice(b, 0, r.seqNum);
    U32Slice(b, 18, r.api);
    U16Slice(b, 22, r.slot);
    U16Slice(b, 24, r.subslot);
    U16Slice(b, 28, r.index);
    U32Slice(b, 30, 0);
    U32Slice(b, 38, 0);
  }

  /** Where the fields of a record that parses stand; its data follows the header block. */
  lemma RecordOctets(buf: Bytes)
    requires ParseOne(buf).Ok?
    ensures var (r, used) := ParseOne(buf).value; var headerEnd := 4 + U16At(buf, 2);
      && U16At(buf, 0) == 0x0008 && 64 <= headerEnd && headerEnd + U32At(buf, 36) == used <= |buf|
      && r.seqNum == U16At(buf, 6) && r.arUuid == buf[8..24] && r.api == U32At(buf, 24) && r.slot == U16At(buf, 28)
      && r.subslot == U16At(buf, 30) && r.index == U16At(buf, 34) && r.data == buf[headerEnd..used]
  {
    var (header, body) := ParseBlock(buf).value;
    assert body == buf[6..6 + |body|] && |body| >= FIXED;
    assert forall i :: 0 <= i < |body| ==> body[i] == buf[6 + i];
    assert body[2..18] == buf[6..6 + |body|][2..18] == buf[8..24];
  }

  /** Exactly a request block of at least 64 octets with all its data there is read as a record. */
  lemma RecordAccepted(buf: Bytes)
    ensures ParseOne(buf).Ok? <==>
      BlockShaped(buf) && U16At(buf, 0) == 0x0008 && Declared(buf) >= 58 && 6 + Declared(buf) + U32At(buf, 36) <= |buf|
  {
    hide ParseBlock;
    BlockAccepted(buf);
    if BlockShaped(buf) {
      var body := ParseBlock(buf).value.1;
      assert forall i :: 0 <= i < |body| ==> body[i] == buf[6 + i];
    }
  }
}
