/** The 6-byte PNIO block header and consecutive blocks
    (crates/pnio/src/cm/block.rs). */
module Blocks {
  import opened Wire

  datatype BlockError =
    | TooShort(need: nat, have: nat)
    | UnexpectedType(expected: u16, got: u16)
    | BadVersion(high: u8, low: u8)
    | BadLength(declared: u16, available: nat)
    | Malformed

  /** Outcome of one bounds check of the cursor: enough bytes, or how many were needed. */
  datatype Need = Enough | Short(need: nat, have: nat) {
    predicate IsFailure() { Short? }

    function PropagateFailure<U>(): Result<U, BlockError>
      requires Short?
    {
      Err(TooShort(need, have))
    }
  }

  function Upto(end: nat, have: nat): Need {
    if end > have then Short(end, have) else Enough
  }

  datatype BlockHeader = BlockHeader(blockType: u16, blockLength: u16)

  const HEADER_LEN := 6

  /** One block at the start of `buf`: its header and the body the header declares. */
  function ParseBlock(buf: Bytes): (r: Result<(BlockHeader, Bytes), BlockError>)
    ensures r.Ok? ==> HEADER_LEN + |r.value.1| <= |buf|
  {
    if |buf| < HEADER_LEN then Err(TooShort(HEADER_LEN, |buf|))
    else if buf[4] != 1 || buf[5] != 0 then Err(BadVersion(buf[4], buf[5]))
    else
      var blockLength := U16At(buf, 2);
      var available := |buf| - HEADER_LEN;
      var bodyLen := Max(blockLength - 2, 0);
      if bodyLen > available then Err(BadLength(blockLength, available))
      else Ok((BlockHeader(U16At(buf, 0), blockLength), buf[HEADER_LEN..HEADER_LEN + bodyLen]))
  }

  /** The header written in front of a body of `bodyLen` bytes. */
  function WriteHeader(blockType: u16, bodyLen: nat): (h: Bytes)
    requires bodyLen + 2 < 0x1_0000
    ensures |h| == HEADER_LEN
  {
    Be16(blockType) + Be16(bodyLen + 2) + [1, 0]
  }

  /** Octets of the body a block's header declares; the length counts the two version octets. */
  function Declared(buf: Bytes): nat
    requires |buf| >= 4
  {
    Max(U16At(buf, 2) - 2, 0)
  }

  /** A block of version 1.0 that is all there. */
  predicate BlockShaped(buf: Bytes) { |buf| >= 6 && buf[4] == 1 && buf[5] == 0 && 6 + Declared(buf) <= |buf| }

  /** Exactly those parse, to their type and body. */
  lemma BlockAccepted(buf: Bytes)
    ensures ParseBlock(buf).Ok? <==> BlockShaped(buf)
    ensures BlockShaped(buf) ==> ParseBlock(buf) == Ok((BlockHeader(U16At(buf, 0), U16At(buf, 2)), buf[6..6 + Declared(buf)]))
  {
  }

  lemma BlockRoundTrip(blockType: u16, body: Bytes, rest: Bytes)
    requires |body| + 2 < 0x1_0000
    ensures ParseBlock(WriteHeader(blockType, |body|) + body + rest)
         == Ok((BlockHeader(blockType, |body| + 2), body))
  {
    var w := WriteHeader(blockType, |body|) + body + rest;
    assert w[HEADER_LEN..HEADER_LEN + |body|] == body;
  }

  // --- consecutive blocks ----------------------------------------------------

  type Block = (BlockHeader, Bytes)

  /** The blocks of `buf` from offset `pos` on. */
  function BlocksFrom(buf: Bytes, pos: nat): Result<seq<Block>, BlockError>
    requires pos <= |buf|
    decreases |buf| - pos
  {
    if pos == |buf| then Ok([])
    else
      var (header, body) :- ParseBlock(buf[pos..]);
      var rest :- BlocksFrom(buf, pos + HEADER_LEN + |body|);
      Ok([(header, body)] + rest)
  }

  method ReadAll(buf: Bytes) returns (r: Result<seq<Block>, BlockError>)
    ensures r == BlocksFrom(buf, 0)
  {
    hide ParseBlock;
    var out: seq<Block> := [];
    var pos := 0;
    ghost var all := BlocksFrom(buf, 0);
    assert all.Ok? ==> out + all.value == all.value;
    while pos < |buf|
      invariant 0 <= pos <= |buf|
      invariant all
             == match BlocksFrom(buf, pos) case Ok(rest) => Ok(out + rest) case Err(e) => Err(e)
    {
      var p := ParseBlock(buf[pos..]);
      if p.Err? { return Err(p.error); }
      var (header, body) := p.value;
      pos := pos + HEADER_LEN + |body|;
      ghost var rest := BlocksFrom(buf, pos);
      assert rest.Ok? ==> out + ([(header, body)] + rest.value) == out + [(header, body)] + rest.value;
      out := out + [(header, body)];
    }
    assert out + [] == out;
    return Ok(out);
  }

  /** Blocks of the given types and bodies, written back to back. */
  function WriteAll(bs: seq<(u16, Bytes)>): Bytes
    requires forall b <- bs :: |b.1| + 2 < 0x1_0000
  {
    if bs == [] then []
    else WriteHeader(bs[0].0, |bs[0].1|) + bs[0].1 + WriteAll(bs[1..])
  }

  /** What `ReadAll` returns for blocks written back to back: each type and body, in order. */
  lemma {:induction false} ReadAllInvertsWriteAll(pre: Bytes, bs: seq<(u16, Bytes)>)
    requires forall b <- bs :: |b.1| + 2 < 0x1_0000
    ensures var r := BlocksFrom(pre + WriteAll(bs), |pre|);
      && r.Ok? && |r.value| == |bs|
      && forall i :: 0 <= i < |bs| ==>
           r.value[i] == (BlockHeader(bs[i].0, |bs[i].1| + 2), bs[i].1)
    decreases |bs|
  {
    hide ParseBlock, WriteHeader;
    var buf := pre + WriteAll(bs);
    if bs != [] {
      var block := WriteHeader(bs[0].0, |bs[0].1|) + bs[0].1;
      assert buf[|pre|..] == block + WriteAll(bs[1..]);
      BlockRoundTrip(bs[0].0, bs[0].1, WriteAll(bs[1..]));
      ReadAllInvertsWriteAll(pre + block, bs[1..]);
      assert buf == pre + block + WriteAll(bs[1..]);
    }
  }
}
