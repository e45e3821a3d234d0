/** The option/suboption/length blocks of DCP, padded to even length
    (crates/pnio/src/dcp/block.rs). */
module Dcp {
  import opened Wire

  datatype DcpBlock = DcpBlock(option: u8, suboption: u8, info: Option<u16>, value: Bytes)

  datatype DcpError = TooShort(need: nat, have: nat) | Malformed

  // --- parsing ---------------------------------------------------------------

  /** The block at `p` and the offset after it, its pad byte skipped. */
  function ParseAt(buf: Bytes, p: nat, hasInfo: bool): (r: Result<(DcpBlock, nat), DcpError>)
    requires p < |buf|
    ensures r.Ok? ==> r.value.1 >= p + 4
  {
    if p + 4 > |buf| then Err(TooShort(p + 4, |buf|))
    else
      var len := U16At(buf, p + 2);
      var end := p + 4 + len;
      if end > |buf| then Err(TooShort(end, |buf|))
      else if hasInfo && len < 2 then Err(Malformed)
      else
        var info := if hasInfo then Some(U16At(buf, p + 4)) else None;
        var value := buf[if hasInfo then p + 6 else p + 4..end];
        Ok((DcpBlock(buf[p], buf[p + 1], info, value), end + len % 2))
  }

  /** The blocks of `buf` from `p` on. */
  function BlocksFrom(buf: Bytes, p: nat, hasInfo: bool): Result<seq<DcpBlock>, DcpError>
    decreases |buf| - p
  {
    if p >= |buf| then Ok([])
    else
      var (b, next) :- ParseAt(buf, p, hasInfo);
      var rest :- BlocksFrom(buf, next, hasInfo);
      Ok([b] + rest)
  }

  /** A parse with blocks already read in front of it. */
  ghost function Following(read: seq<DcpBlock>, r: Result<seq<DcpBlock>, DcpError>): Result<seq<DcpBlock>, DcpError> {
    match r case Ok(rest) => Ok(read + rest) case Err(e) => Err(e)
  }

  lemma ParseStep(buf: Bytes, p: nat, hasInfo: bool, read: seq<DcpBlock>)
    ensures p >= |buf| ==> Following(read, BlocksFrom(buf, p, hasInfo)) == Ok(read)
    ensures p < |buf| ==>
      var q := ParseAt(buf, p, hasInfo);
      Following(read, BlocksFrom(buf, p, hasInfo))
      == if q.Err? then Err(q.error) else Following(read + [q.value.0], BlocksFrom(buf, q.value.1, hasInfo))
  {
    hide ParseAt;
    if p >= |buf| {
      assert read + [] == read;
    } else {
      var q := ParseAt(buf, p, hasInfo);
      if q.Ok? {
        var rest := BlocksFrom(buf, q.value.1, hasInfo);
        assert rest.Ok? ==> read + ([q.value.0] + rest.value) == read + [q.value.0] + rest.value;
      }
    }
  }

  method ParseBlocks(buf: Bytes, hasInfo: bool) returns (r: Result<seq<DcpBlock>, DcpError>)
    ensures r == BlocksFrom(buf, 0, hasInfo)
  {
    hide ParseAt, BlocksFrom, Following;
    var blocks: seq<DcpBlock> := [];
    var p := 0;
    ghost var all := BlocksFrom(buf, 0, hasInfo);
    NothingRead(all);
    while p < |buf|
      invariant all == Following(blocks, BlocksFrom(buf, p, hasInfo))
      decreases |buf| - p
    {
      ParseStep(buf, p, hasInfo, blocks);
      var q := ParseAt(buf, p, hasInfo);
      if q.Err? { return Err(q.error); }
      blocks := blocks + [q.value.0];
      p := q.value.1;
    }
    ParseStep(buf, p, hasInfo, blocks);
    return Ok(blocks);
  }

  lemma NothingRead(r: Result<seq<DcpBlock>, DcpError>)
    ensures Following([], r) == r
  {
    assert r.Ok? ==> [] + r.value == r.value;
  }

  // --- printing --------------------------------------------------------------

  /** Octets of BlockInfo and value: what the length field counts. */
  function BodyLen(b: DcpBlock): nat { (if b.info.Some? then 2 else 0) + |b.value| }

  /** The writer's own assertion. */
  predicate Fits(b: DcpBlock) { BodyLen(b) < 0x1_0000 }

  function EncodedLen(b: DcpBlock): nat { 4 + BodyLen(b) + BodyLen(b) % 2 }

  function Print(b: DcpBlock): (w: Bytes)
    requires Fits(b)
    ensures |w| == EncodedLen(b)
  {
    [b.option, b.suboption] + Be16(BodyLen(b)) + (if b.info.Some? then Be16(b.info.value) else []) + b.value
    + Zeros(BodyLen(b) % 2)
  }

  function PrintAll(bs: seq<DcpBlock>): Bytes
    requires forall b <- bs :: Fits(b)
  {
    if bs == [] then [] else PrintAll(bs[..|bs| - 1]) + Print(bs[|bs| - 1])
  }

  method WriteBlocks(bs: seq<DcpBlock>) returns (out: Bytes)
    requires forall b <- bs :: Fits(b)
    ensures out == PrintAll(bs)
  {
    hide Print;
    out := [];
    for i := 0 to |bs|
      invariant out == PrintAll(bs[..i])
    {
      assert bs[..i + 1][..i] == bs[..i];
      out := out + Print(bs[i]);
    }
    assert bs[..|bs|] == bs;
  }

  /** The encoded length, truncated to 16 bits. */
  method BlocksEncodedLen(bs: seq<DcpBlock>) returns (n: u16)
    requires forall b <- bs :: Fits(b)
    ensures |PrintAll(bs)| < 0x1_0000 <==> n == |PrintAll(bs)|
    ensures n == |PrintAll(bs)| % 0x1_0000
  {
    hide Print;
    var total := 0;
    for i := 0 to |bs|
      invariant total == |PrintAll(bs[..i])|
    {
      assert bs[..i + 1][..i] == bs[..i];
      total := total + EncodedLen(bs[i]);
    }
    assert bs[..|bs|] == bs;
    n := total % 0x1_0000;
  }

  // --- the round trip ----------------------------------------------------------

  lemma BlockRoundTrip(pre: Bytes, b: DcpBlock, rest: Bytes)
    requires Fits(b)
    ensures ParseAt(pre + Print(b) + rest, |pre|, b.info.Some?) == Ok((b, |pre| + EncodedLen(b)))
  {
    hide U16At, Be16;
    var buf, p := pre + Print(b) + rest, |pre|;
    var w := Print(b);
    assert buf[p..p + |w|] == w;
    assert w[2..4] == Be16(BodyLen(b));
    assert buf[p + 2..p + 4] == w[2..4];
    U16Slice(buf, p + 2, BodyLen(b));
    assert buf[p] == w[0] && buf[p + 1] == w[1];
    var at := if b.info.Some? then 6 else 4;
    if b.info.Some? {
      assert w[4..6] == Be16(b.info.value);
      assert buf[p + 4..p + 6] == w[4..6];
      U16Slice(buf, p + 4, b.info.value);
    }
    assert w[at..4 + BodyLen(b)] == b.value;
    assert buf[p + at..p + 4 + BodyLen(b)] == w[at..4 + BodyLen(b)];
  }

  lemma {:induction false} PrintFirst(b: DcpBlock, bs: seq<DcpBlock>)
    requires Fits(b) && forall x <- bs :: Fits(x)
    ensures PrintAll([b] + bs) == Print(b) + PrintAll(bs)
    decreases |bs|
  {
    hide Print;
    if bs == [] {
      assert [b] + bs == [b] && [b][..0] == [];
    } else {
      var init := bs[..|bs| - 1];
      assert ([b] + bs)[..|bs|] == [b] + init;
      PrintFirst(b, init);
    }
  }

  /** Parsing inverts printing for every list of blocks, odd lengths and their padding included. */
  lemma {:induction false} ParseInvertsWrite(pre: Bytes, bs: seq<DcpBlock>, hasInfo: bool)
    requires forall b <- bs :: Fits(b) && b.info.Some? == hasInfo
    ensures BlocksFrom(pre + PrintAll(bs), |pre|, hasInfo) == Ok(bs)
    decreases |bs|
  {
    hide ParseAt, Print;
    if bs == [] {
      assert pre + PrintAll(bs) == pre;
    } else {
      var b, rest := bs[0], bs[1..];
      assert bs == [b] + rest;
      PrintFirst(b, rest);
      var tail := PrintAll(rest);
      assert pre + PrintAll(bs) == pre + Print(b) + tail;
      BlockRoundTrip(pre, b, tail);
      ParseInvertsWrite(pre + Print(b), rest, hasInfo);
    }
  }

  /** A last block of odd length may come without its pad byte. */
  lemma LastPadOptional(pre: Bytes, b: DcpBlock)
    requires Fits(b) && BodyLen(b) % 2 == 1
    ensures BlocksFrom(pre + Print(b)[..4 + BodyLen(b)], |pre|, b.info.Some?) == Ok([b])
  {
    hide ParseAt, Print;
    var cut := Print(b)[..4 + BodyLen(b)];
    var buf := pre + cut;
    UnpaddedRoundTrip(pre, b);
    assert |buf| < |pre| + EncodedLen(b);
    assert [b] + [] == [b];
  }

  lemma UnpaddedRoundTrip(pre: Bytes, b: DcpBlock)
    requires Fits(b)
    ensures ParseAt(pre + Print(b)[..4 + BodyLen(b)], |pre|, b.info.Some?) == Ok((b, |pre| + EncodedLen(b)))
  {
    hide Print;
    var full, buf := pre + Print(b) + [], pre + Print(b)[..4 + BodyLen(b)];
    BlockRoundTrip(pre, b, []);
    assert full[..|buf|] == buf;
    BlockLength(pre, b);
    assert forall i, j :: 0 <= i <= j <= |buf| ==> full[i..j] == buf[i..j];
  }

  lemma BlockLength(pre: Bytes, b: DcpBlock)
    requires Fits(b)
    ensures U16At(pre + Print(b) + [], |pre| + 2) == BodyLen(b)
  {
    var full := pre + Print(b) + [];
    assert full[|pre| + 2..|pre| + 4] == Be16(BodyLen(b));
    U16Slice(full, |pre| + 2, BodyLen(b));
  }

  /** A printed block, octet by octet. */
  lemma BlockOctets(b: DcpBlock)
    requires Fits(b)
    ensures var w, at := Print(b), if b.info.Some? then 6 else 4;
      && w[0] == b.option && w[1] == b.suboption && U16At(w, 2) == at - 4 + |b.value|
      && (b.info.Some? ==> U16At(w, 4) == b.info.value)
      && w[at..at + |b.value|] == b.value && w[at + |b.value|..] == (if |b.value| % 2 == 1 then [0] else [])
  {
    hide U16At, Be16;
    var w, at := Print(b), if b.info.Some? then 6 else 4;
    assert w[2..4] == Be16(BodyLen(b));
    U16Slice(w, 2, BodyLen(b));
    if b.info.Some? {
      assert w[4..6] == Be16(b.info.value);
      U16Slice(w, 4, b.info.value);
    }
    assert w[at..at + |b.value|] == b.value;
    assert w[at + |b.value|..] == Zeros(BodyLen(b) % 2);
  }
}
