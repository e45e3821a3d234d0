/** Octets, big-endian scalars, hardware addresses and the Ethernet header
    (crates/pnio/src/eth/header.rs). Integer widths are subset types of `int`. */
module Wire {

  type u8 = x: int | 0 <= x < 0x100
  type u16 = x: int | 0 <= x < 0x1_0000
  type u32 = x: int | 0 <= x < 0x1_0000_0000

  type Bytes = seq<u8>
  type Mac = m: Bytes | |m| == 6 witness [0, 0, 0, 0, 0, 0]
  type Uuid = u: Bytes | |u| == 16 witness [0, 0, 0, 0, 0, 0, 0, 0, 0, 0, 0, 0, 0, 0, 0, 0]

  datatype Option<+T> = None | Some(value: T)

  datatype Result<+T, +E> = Ok(value: T) | Err(error: E) {
    predicate IsFailure() { Err? }

    function PropagateFailure<U>(): Result<U, E>
      requires Err?
    {
      Err(error)
    }

    function Extract(): T
      requires Ok?
    {
      value
    }
  }

  function Be16(v: u16): (b: Bytes)
    ensures |b| == 2
  {
    [v / 0x100, v % 0x100]
  }

  function FromBe16(hi: u8, lo: u8): u16 {
    hi * 0x100 + lo
  }

  function Be32(v: u32): (b: Bytes)
    ensures |b| == 4
  {
    [v / 0x100_0000, v / 0x1_0000 % 0x100, v / 0x100 % 0x100, v % 0x100]
  }

  function FromBe32(b0: u8, b1: u8, b2: u8, b3: u8): u32 {
    b0 * 0x100_0000 + b1 * 0x1_0000 + b2 * 0x100 + b3
  }

  /** The two octets at `o`, read as a big-endian word. */
  function U16At(b: Bytes, o: nat): u16
    requires o + 2 <= |b|
  {
    FromBe16(b[o], b[o + 1])
  }

  /** The four octets at `o`, read as a big-endian double word. */
  function U32At(b: Bytes, o: nat): u32
    requires o + 4 <= |b|
  {
    FromBe32(b[o], b[o + 1], b[o + 2], b[o + 3])
  }

  /** A big-endian word printed anywhere in a buffer reads back. */
  lemma U16Slice(b: Bytes, o: nat, v: u16)
    requires o + 2 <= |b| && b[o..o + 2] == Be16(v)
    ensures U16At(b, o) == v
  {
    assert b[o] == b[o..o + 2][0] && b[o + 1] == b[o..o + 2][1];
  }

  lemma Be32Inverse(v: u32)
    ensures var b := Be32(v); FromBe32(b[0], b[1], b[2], b[3]) == v
  {
    var hi, lo := v / 0x1_0000, v % 0x1_0000;
    assert v / 0x100_0000 == hi / 0x100;
    assert v / 0x100 % 0x100 == lo / 0x100;
    assert v % 0x100 == lo % 0x100;
  }

  /** A big-endian double word printed anywhere in a buffer reads back. */
  lemma U32Slice(b: Bytes, o: nat, v: u32)
    requires o + 4 <= |b| && b[o..o + 4] == Be32(v)
    ensures U32At(b, o) == v
  {
    var w := b[o..o + 4];
    assert b[o] == w[0] && b[o + 1] == w[1] && b[o + 2] == w[2] && b[o + 3] == w[3];
    Be32Inverse(v);
  }

  /** `n` zero octets. */
  function Zeros(n: nat): (z: Bytes)
    ensures |z| == n
    ensures forall i :: 0 <= i < n ==> z[i] == 0
  {
    seq(n, _ => 0)
  }

  function Min(a: int, b: int): int { if a < b then a else b }

  function Max(a: int, b: int): int { if a < b then b else a }

  /** Copies `bytes` into `out` at `off`. */
  method CopyInto(out: array<u8>, off: nat, bytes: Bytes)
    requires off + |bytes| <= out.Length
    modifies out
    ensures out[..] == old(out[..off]) + bytes + old(out[off + |bytes|..])
  {
    for i := 0 to |bytes|
      invariant out[..] == old(out[..off]) + bytes[..i] + old(out[off + i..])
    {
      out[off + i] := bytes[i];
    }
  }

  // --- Ethernet header -------------------------------------------------------

  const ETHERTYPE_PROFINET: u16 := 0x8892
  const ETHERTYPE_VLAN: u16 := 0x8100

  datatype EthHeader = EthHeader(dst: Mac, src: Mac, vlan: Option<u16>, ethertype: u16)

  /** The header and the offset of its payload; `None` when the buffer is too short. */
  function ParseEth(buf: Bytes): Option<(EthHeader, nat)> {
    if |buf| < 14 then None
    else
      var first := U16At(buf, 12);
      if first == ETHERTYPE_VLAN then
        if |buf| < 18 then None
        else Some((EthHeader(buf[..6], buf[6..12], Some(U16At(buf, 14)), U16At(buf, 16)), 18))
      else
        Some((EthHeader(buf[..6], buf[6..12], None, first), 14))
  }

  function WriteEth(h: EthHeader): Bytes {
    h.dst + h.src
    + (match h.vlan case Some(tci) => Be16(ETHERTYPE_VLAN) + Be16(tci) case None => [])
    + Be16(h.ethertype)
  }

  lemma EthRoundTrip(h: EthHeader, payload: Bytes)
    requires h.vlan.None? ==> h.ethertype != ETHERTYPE_VLAN
    ensures ParseEth(WriteEth(h) + payload) == Some((h, |WriteEth(h)|))
  {
    var w := WriteEth(h) + payload;
    assert w[..6] == h.dst;
    assert w[6..12] == h.src;
  }
}
