/** Typed values over a packed field table: the codecs (crates/pnio/src/data.rs) and the slot
    writer and snapshot that use them (crates/pnio/src/api.rs). `REAL` values are their IEEE-754
    bit pattern. */
module Typed {
  import opened Wire
  import opened Fields
  import I = Image

  type i16 = x: int | -0x8000 <= x < 0x8000
  type i32 = x: int | -0x8000_0000 <= x < 0x8000_0000

  datatype Value = VBool(b: bool) | VInt(i: i16) | VWord(w: u16) | VDint(d: i32) | VReal(bits: u32)

  function TypeOf(v: Value): FieldType {
    match v case VBool(_) => Bool case VInt(_) => Int case VWord(_) => Word case VDint(_) => Dint case VReal(_) => Real
  }

  datatype CodecError = TooShort(need: nat, have: nat) | BitOutOfRange(bit: nat, bytes: nat)

  datatype ApiError =
    | IndexOutOfRange(index: nat, len: nat)
    | TypeMismatch(index: nat, declared: FieldType, requested: FieldType)
    | Codec(error: CodecError)
    | NoLayoutYet
    | ImageRefused(reason: I.ImageError)

  // --- bits ------------------------------------------------------------------------

  function Pow2(k: nat): (p: nat)
    ensures p > 0
  {
    if k == 0 then 1 else 2 * Pow2(k - 1)
  }

  /** `(b >> k) & 1 == 1`. */
  predicate BitOf(b: nat, k: nat) {
    if k == 0 then b % 2 == 1 else BitOf(b / 2, k - 1)
  }

  /** `b` with bit `k` set or cleared. */
  function WithBit(b: nat, k: nat, v: bool): nat {
    if k == 0 then b - b % 2 + if v then 1 else 0 else 2 * WithBit(b / 2, k - 1, v) + b % 2
  }

  /** Writing a bit adds or removes its mask `1 << k`, or changes nothing: the source's `|=` and `&=`. */
  lemma {:induction false} WithBitIsMask(b: nat, k: nat, v: bool)
    ensures WithBit(b, k, v)
         == if v == BitOf(b, k) then b else if v then b + Pow2(k) else b - Pow2(k)
  {
    if k > 0 { WithBitIsMask(b / 2, k - 1, v); }
  }

  lemma {:induction false} WithBitStays(b: nat, k: nat, v: bool, n: nat)
    requires k < n && b < Pow2(n)
    ensures WithBit(b, k, v) < Pow2(n)
  {
    if k > 0 { WithBitStays(b / 2, k - 1, v, n - 1); }
  }

  /** Writing one bit sets it and leaves every other one alone. */
  lemma {:induction false} WithBitExact(b: nat, k: nat, v: bool, m: nat)
    ensures BitOf(WithBit(b, k, v), m) == if m == k then v else BitOf(b, m)
  {
    if k > 0 && m > 0 {
      WithBitExact(b / 2, k - 1, v, m - 1);
      assert WithBit(b, k, v) / 2 == WithBit(b / 2, k - 1, v);
    } else if k == 0 && m > 0 {
      assert WithBit(b, k, v) / 2 == b / 2;
    }
  }

  function SetBit8(b: u8, k: nat, v: bool): u8
    requires k < 8
  {
    assert Pow2(8) == 0x100 by { assert Pow2(4) == 16; }
    WithBitStays(b, k, v, 8);
    WithBit(b, k, v)
  }

  // --- scalars -----------------------------------------------------------------------

  function Bits16(i: i16): u16 { i % 0x1_0000 }

  function Signed16(p: u16): i16 { if p >= 0x8000 then p - 0x1_0000 else p }

  function Bits32(i: i32): u32 { i % 0x1_0000_0000 }

  function Signed32(p: u32): i32 { if p >= 0x8000_0000 then p - 0x1_0000_0000 else p }

  /** The big-endian bytes of a byte-aligned value. */
  function ScalarBytes(v: Value): (b: Bytes)
    requires !v.VBool?
    ensures ByteLen(TypeOf(v)) == Some(|b|)
  {
    match v
    case VInt(i) => Be16(Bits16(i))
    case VWord(w) => Be16(w)
    case VDint(d) => Be32(Bits32(d))
    case VReal(bits) => Be32(bits)
  }

  // --- encode and decode at a field ------------------------------------------------------

  /** Encodes into `bytes[f.byte..]`, at bit `f.bit` of it for a `Bool`. */
  function Encode(bytes: Bytes, f: FieldRef, v: Value): Result<Bytes, CodecError>
    requires f.byte <= |bytes|
  {
    var have := |bytes| - f.byte;
    if v.VBool? then
      var at := f.byte + f.bit / 8;
      if f.bit / 8 >= have then Err(BitOutOfRange(f.bit, have))
      else Ok(bytes[at := SetBit8(bytes[at], f.bit % 8, v.b)])
    else
      var s := ScalarBytes(v);
      if have < |s| then Err(TooShort(|s|, have))
      else Ok(bytes[..f.byte] + s + bytes[f.byte + |s|..])
  }

  /** Decodes a value of the field's type from `bytes[f.byte..]`. */
  function Decode(bytes: Bytes, f: FieldRef): Result<Value, CodecError>
    requires f.byte <= |bytes|
  {
    var have := |bytes| - f.byte;
    match f.ty
    case Bool =>
      if f.bit / 8 >= have then Err(BitOutOfRange(f.bit, have))
      else Ok(VBool(BitOf(bytes[f.byte + f.bit / 8], f.bit % 8)))
    case Int => if have < 2 then Err(TooShort(2, have)) else Ok(VInt(Signed16(U16At(bytes, f.byte))))
    case Word => if have < 2 then Err(TooShort(2, have)) else Ok(VWord(U16At(bytes, f.byte)))
    case Dint => if have < 4 then Err(TooShort(4, have)) else Ok(VDint(Signed32(U32At(bytes, f.byte))))
    case Real => if have < 4 then Err(TooShort(4, have)) else Ok(VReal(U32At(bytes, f.byte)))
  }

  // --- slot access -------------------------------------------------------------------------

  /** Every field of the table lies inside `n` bytes, byte types on a byte boundary. */
  predicate TableFits(fields: seq<FieldRef>, n: nat) {
    forall i :: 0 <= i < |fields| ==>
      && fields[i].bit < 8 && (!fields[i].ty.Bool? ==> fields[i].bit == 0)
      && Hi(fields[i]) <= 8 * n
  }

  function SetField(fields: seq<FieldRef>, bytes: Bytes, index: nat, v: Value): Result<Bytes, ApiError>
    requires TableFits(fields, |bytes|)
  {
    if index >= |fields| then Err(IndexOutOfRange(index, |fields|))
    else
      var f := fields[index];
      if f.ty != TypeOf(v) then Err(TypeMismatch(index, f.ty, TypeOf(v)))
      else match Encode(bytes, f, v) case Ok(b) => Ok(b) case Err(e) => Err(Codec(e))
  }

  function GetField(fields: seq<FieldRef>, bytes: Bytes, index: nat): Result<Value, ApiError>
    requires TableFits(fields, |bytes|)
  {
    if index >= |fields| then Err(IndexOutOfRange(index, |fields|))
    else match Decode(bytes, fields[index]) case Ok(v) => Ok(v) case Err(e) => Err(Codec(e))
  }

  // --- independence ---------------------------------------------------------------------------

  predicate Disjoint(f: FieldRef, g: FieldRef) { Hi(f) <= Lo(g) || Hi(g) <= Lo(f) }

  lemma EncodeLength(bytes: Bytes, f: FieldRef, v: Value)
    requires f.bit < 8 && (!f.ty.Bool? ==> f.bit == 0) && Hi(f) <= 8 * |bytes| && f.ty == TypeOf(v)
    ensures f.byte <= |bytes| && Encode(bytes, f, v).Ok? && |Encode(bytes, f, v).value| == |bytes|
  {
    hide SetBit8, Be16, Be32;
  }

  function NumberOf(v: Value): int
    requires !v.VBool?
  {
    match v case VInt(n) => n case VWord(n) => n case VDint(n) => n case VReal(n) => n
  }

  /** What octet `k` of `n` counts in a big-endian number. */
  function Weight(n: nat, k: nat): (w: nat)
    requires k < n <= 4
    ensures w > 0
  {
    match n - 1 - k case 0 => 1 case 1 => 0x100 case 2 => 0x1_0000 case _ => 0x100_0000
  }

  lemma ScalarOctets(v: Value, k: nat)
    requires !v.VBool? && k < |ScalarBytes(v)|
    ensures |ScalarBytes(v)| <= 4 && ScalarBytes(v)[k] == NumberOf(v) / Weight(|ScalarBytes(v)|, k) % 0x100
  {
    hide Be16, Be32;
    match v
    case VInt(i) => Octets16(i, k);
    case VWord(w) => Octets16(w, k);
    case VDint(d) => Octets32(d, k);
    case VReal(bits) => Octets32(bits, k);
  }

  lemma Octets16(i: int, k: nat)
    requires k < 2
    ensures Be16(i % 0x1_0000)[k] == i / Weight(2, k) % 0x100
  {
    OctetsOf16(i);
  }

  lemma Octets32(i: int, k: nat)
    requires k < 4
    ensures Be32(i % 0x1_0000_0000)[k] == i / Weight(4, k) % 0x100
  {
    OctetsOf32(i);
  }

  lemma OctetsOf16(i: int)
    ensures i % 0x1_0000 / 0x100 == i / 0x100 % 0x100 && i % 0x1_0000 % 0x100 == i % 0x100
  {
    var q, r := i / 0x1_0000, i % 0x1_0000;
    assert i == 0x100 * (0x100 * q + r / 0x100) + r % 0x100;
    assert i / 0x100 == 0x100 * q + r / 0x100;
  }

  lemma Low8(k: int, x: int)
    ensures (0x100 * k + x) % 0x100 == x % 0x100
  {
  }

  lemma Above24(q: int, p: u32)
    ensures (0x1_0000_0000 * q + p) / 0x100_0000 == 0x100 * q + p / 0x100_0000
  {
    assert 0x1_0000_0000 * q + p == 0x100_0000 * (0x100 * q + p / 0x100_0000) + p % 0x100_0000;
  }

  lemma Above16(q: int, p: u32)
    ensures (0x1_0000_0000 * q + p) / 0x1_0000 == 0x100 * (0x100 * q) + p / 0x1_0000
  {
    assert 0x1_0000_0000 * q + p == 0x1_0000 * (0x100 * (0x100 * q) + p / 0x1_0000) + p % 0x1_0000;
  }

  lemma Above8(q: int, p: u32)
    ensures (0x1_0000_0000 * q + p) / 0x100 == 0x100 * (0x1_0000 * q) + p / 0x100
  {
    assert 0x1_0000_0000 * q + p == 0x100 * (0x100 * (0x1_0000 * q) + p / 0x100) + p % 0x100;
  }

  lemma OctetsOf32(i: int)
    ensures var p := i % 0x1_0000_0000;
      && p / 0x100_0000 == i / 0x100_0000 % 0x100 && p / 0x1_0000 % 0x100 == i / 0x1_0000 % 0x100
      && p / 0x100 % 0x100 == i / 0x100 % 0x100 && p % 0x100 == i % 0x100
  {
    var q, p := i / 0x1_0000_0000, i % 0x1_0000_0000;
    assert i == 0x1_0000_0000 * q + p;
    Above24(q, p);
    Above16(q, p);
    Above8(q, p);
    Low8(q, p / 0x100_0000);
    Low8(0x100 * q, p / 0x1_0000);
    Low8(0x1_0000 * q, p / 0x100);
    Low8(0x100_0000 * q, p);
  }

  /** Where a value's bits go: a number big-endian in two's complement, a bool into its bit of its byte, and nothing else
      changes. */
  lemma EncodedOctets(bytes: Bytes, f: FieldRef, v: Value, i: nat)
    requires f.bit < 8 && (!f.ty.Bool? ==> f.bit == 0) && Hi(f) <= 8 * |bytes| && f.ty == TypeOf(v) && i < |bytes|
    ensures f.byte <= |bytes| && Encode(bytes, f, v).Ok? && |Encode(bytes, f, v).value| == |bytes|
    ensures var out, n := Encode(bytes, f, v).value, if v.VWord? || v.VInt? then 2 else 4;
      out[i] == if v.VBool? then
                  if i != f.byte || v.b == BitOf(bytes[i], f.bit) then bytes[i]
                  else if v.b then bytes[i] + Pow2(f.bit) else bytes[i] - Pow2(f.bit)
                else if f.byte <= i < f.byte + n then NumberOf(v) / Weight(n, i - f.byte) % 0x100
                else bytes[i]
  {
    hide BitOf, Pow2, WithBit, ScalarBytes, Weight;
    EncodeLength(bytes, f, v);
    if v.VBool? {
      WithBitIsMask(bytes[f.byte], f.bit, v.b);
    } else if f.byte <= i < f.byte + |ScalarBytes(v)| {
      ScalarOctets(v, i - f.byte);
    }
  }

  /** A value reads back from where it was written. */
  lemma DecodeEncode(bytes: Bytes, f: FieldRef, v: Value)
    requires f.bit < 8 && (!f.ty.Bool? ==> f.bit == 0) && Hi(f) <= 8 * |bytes| && f.ty == TypeOf(v)
    ensures f.byte <= |bytes| && Encode(bytes, f, v).Ok?
    ensures Decode(Encode(bytes, f, v).value, f) == Ok(v)
  {
    hide U16At, U32At, Be16, Be32;
    EncodeLength(bytes, f, v);
    var out := Encode(bytes, f, v).value;
    match v
    case VBool(b) => WithBitExact(bytes[f.byte], f.bit, b, f.bit);
    case VInt(i) => U16Slice(out, f.byte, Bits16(i));
    case VWord(w) => U16Slice(out, f.byte, w);
    case VDint(d) => U32Slice(out, f.byte, Bits32(d));
    case VReal(bits) => U32Slice(out, f.byte, bits);
  }

  /** Writing one field does not change what a field with other bits reads. */
  lemma EncodeElsewhere(bytes: Bytes, f: FieldRef, v: Value, g: FieldRef)
    requires f.bit < 8 && (!f.ty.Bool? ==> f.bit == 0) && Hi(f) <= 8 * |bytes| && f.ty == TypeOf(v)
    requires g.bit < 8 && (!g.ty.Bool? ==> g.bit == 0) && Hi(g) <= 8 * |bytes|
    requires Disjoint(f, g)
    ensures f.byte <= |bytes| && g.byte <= |bytes| && Encode(bytes, f, v).Ok?
    ensures |Encode(bytes, f, v).value| == |bytes|
    ensures Decode(Encode(bytes, f, v).value, g) == Decode(bytes, g)
  {
    hide Be16, Be32, SetBit8, BitOf;
    EncodeLength(bytes, f, v);
    var out := Encode(bytes, f, v).value;
    if f.ty.Bool? && g.ty.Bool? && f.byte == g.byte {
      SetBit8Exact(bytes[f.byte], f.bit, v.b, g.bit);
    } else {
      var n := match ByteLen(g.ty) case Some(k) => k case None => 1;
      forall i | g.byte <= i < g.byte + n ensures out[i] == bytes[i] { }
    }
  }

  lemma SetBit8Exact(b: u8, k: nat, v: bool, m: nat)
    requires k < 8 && m < 8
    ensures BitOf(SetBit8(b, k, v), m) == if m == k then v else BitOf(b, m)
  {
    WithBitExact(b, k, v, m);
  }

  /** For every field list within the size limit, on a buffer of the computed length: a field can
      always be written with a value of its type and always be read, the written value reads back,
      and every other field reads as before. */
  lemma FieldIndependence(types: seq<FieldType>, bytes: Bytes, i: nat, v: Value)
    requires Size(types) <= MAX_SUBMODULE_BYTES && |bytes| == Size(types)
    requires i < |types| && TypeOf(v) == types[i]
    ensures var refs := Refs(types);
      && |refs| == |types| && TableFits(refs, |bytes|)
      && (forall j :: 0 <= j < |refs| ==> GetField(refs, bytes, j).Ok?)
      && var w := SetField(refs, bytes, i, v);
      && w.Ok? && |w.value| == |bytes|
      && forall j :: 0 <= j < |refs| ==>
           GetField(refs, w.value, j) == if j == i then Ok(v) else GetField(refs, bytes, j)
  {
    hide Encode, Decode, Refs, Size, Lo, Hi;
    FieldsApart(types);
    var refs := Refs(types);
    EncodeLength(bytes, refs[i], v);
    DecodeEncode(bytes, refs[i], v);
    var w := SetField(refs, bytes, i, v);
    forall j | 0 <= j < |refs|
      ensures GetField(refs, bytes, j).Ok?
      ensures GetField(refs, w.value, j) == if j == i then Ok(v) else GetField(refs, bytes, j)
    {
      DecodeSucceeds(bytes, refs[j]);
      if j != i { EncodeElsewhere(bytes, refs[i], v, refs[j]); }
    }
  }

  lemma DecodeSucceeds(bytes: Bytes, f: FieldRef)
    requires f.bit < 8 && (!f.ty.Bool? ==> f.bit == 0) && Hi(f) <= 8 * |bytes|
    ensures f.byte <= |bytes| && Decode(bytes, f).Ok?
  {
  }

  // --- the writer and the all-or-nothing update ----------------------------------------------

  /** A borrowed handle onto one slot's working buffer. */
  class SlotWriter {
    const fields: seq<FieldRef>
    const bytes: array<u8>

    constructor (fields: seq<FieldRef>, bytes: array<u8>)
      ensures this.fields == fields && this.bytes == bytes
    {
      this.fields, this.bytes := fields, bytes;
    }

    method Set(index: nat, v: Value) returns (r: Result<bool, ApiError>)
      requires TableFits(fields, bytes.Length)
      modifies bytes
      ensures match SetField(fields, old(bytes[..]), index, v)
              case Ok(b) => r.Ok? && bytes[..] == b
              case Err(e) => r == Err(e) && bytes[..] == old(bytes[..])
    {
      hide ScalarBytes, SetBit8;
      if index >= |fields| { return Err(IndexOutOfRange(index, |fields|)); }
      var f := fields[index];
      if f.ty != TypeOf(v) { return Err(TypeMismatch(index, f.ty, TypeOf(v))); }
      EncodeLength(bytes[..], f, v);
      if v.VBool? {
        bytes[f.byte] := SetBit8(bytes[f.byte], f.bit, v.b);
      } else {
        CopyInto(bytes, f.byte, ScalarBytes(v));
      }
      return Ok(true);
    }
  }

  /** The buffer after a series of writes, or the first error. */
  function SetAll(fields: seq<FieldRef>, bytes: Bytes, writes: seq<(nat, Value)>): (r: Result<Bytes, ApiError>)
    requires TableFits(fields, |bytes|)
    ensures r.Ok? ==> |r.value| == |bytes|
  {
    if writes == [] then Ok(bytes)
    else
      var k := |writes| - 1;
      match SetAll(fields, bytes, writes[..k])
      case Err(e) => Err(e)
      case Ok(b) =>
        var r := SetField(fields, b, writes[k].0, writes[k].1);
        if r.Ok? then SetFieldLength(fields, b, writes[k].0, writes[k].1); r else r
  }

  lemma SetFieldLength(fields: seq<FieldRef>, bytes: Bytes, index: nat, v: Value)
    requires TableFits(fields, |bytes|) && SetField(fields, bytes, index, v).Ok?
    ensures |SetField(fields, bytes, index, v).value| == |bytes|
  {
    EncodeLength(bytes, fields[index], v);
  }

  /** The last value written to field `j`, if the series writes it. */
  function LastWrite(writes: seq<(nat, Value)>, j: nat): Option<Value> {
    if writes == [] then None
    else if writes[|writes| - 1].0 == j then Some(writes[|writes| - 1].1)
    else LastWrite(writes[..|writes| - 1], j)
  }

  /** What the image's answer to a write means for the application: an unknown submodule means that no
      layout is in place. */
  function Answered(res: I.Res): Result<bool, ApiError> {
    match res
    case Failed(e) => if e.UnknownSubmodule? then Err(NoLayoutYet) else Err(ImageRefused(e))
    case _ => Ok(true)
  }

  /** One slot's working copy. */
  class InputSlot {
    const slot: u16
    const fields: seq<FieldRef>
    var working: Bytes

    constructor (slot: u16, fields: seq<FieldRef>, n: nat)
      ensures this.slot == slot && this.fields == fields && working == Zeros(n)
    {
      this.slot, this.fields, working := slot, fields, Zeros(n);
    }

    /** Applies the writes to a scratch copy. If all succeed the copy is committed and written to the image
        whole; the image may still refuse it, which leaves the image as it was and the copy committed. */
    method WithInputs(writes: seq<(nat, Value)>, image: I.IoImage) returns (r: Result<bool, ApiError>, image': I.IoImage)
      requires TableFits(fields, |working|)
      modifies this
      ensures match SetAll(fields, old(working), writes)
              case Ok(b) => working == b && var (after, res) := I.Effect(image, I.WriteInputs(slot, 1, b));
                            image' == after && r == Answered(res) && (r.Err? ==> image' == image)
              case Err(e) => r == Err(e) && working == old(working) && image' == image
    {
      hide SetField, I.Lookup;
      image' := image;
      var scratch := new u8[|working|](i requires 0 <= i < |working| reads this => working[i]);
      var w := new SlotWriter(fields, scratch);
      assert scratch[..] == working && writes[..0] == [];
      for k := 0 to |writes|
        invariant SetAll(fields, working, writes[..k]) == Ok(scratch[..])
        invariant working == old(working)
        modifies scratch
      {
        assert writes[..k + 1][..k] == writes[..k];
        var s := w.Set(writes[k].0, writes[k].1);
        if s.Err? {
          SetAllFails(fields, working, writes, k + 1);
          return Err(s.error), image;
        }
      }
      assert writes[..|writes|] == writes;
      working := scratch[..];
      var (after, res) := I.Effect(image, I.WriteInputs(slot, 1, working));
      image' := after;
      r := Answered(res);
    }
  }

  lemma {:induction false} SetAllFails(fields: seq<FieldRef>, bytes: Bytes, writes: seq<(nat, Value)>, k: nat)
    requires TableFits(fields, |bytes|) && k <= |writes| && SetAll(fields, bytes, writes[..k]).Err?
    ensures SetAll(fields, bytes, writes) == SetAll(fields, bytes, writes[..k])
    decreases |writes| - k
  {
    if k == |writes| {
      assert writes[..k] == writes;
    } else {
      assert writes[..k + 1][..k] == writes[..k];
      SetAllFails(fields, bytes, writes, k + 1);
    }
  }

  /** After a committed series every field reads its last written value, or what it read before. */
  lemma {:induction false} CommittedWrites(types: seq<FieldType>, bytes: Bytes, writes: seq<(nat, Value)>, j: nat)
    requires Size(types) <= MAX_SUBMODULE_BYTES && |bytes| == Size(types) && j < |types|
    ensures TableFits(Refs(types), |bytes|)
    ensures var w := SetAll(Refs(types), bytes, writes);
      w.Ok? ==> GetField(Refs(types), w.value, j)
                == match LastWrite(writes, j) case Some(v) => Ok(v) case None => GetField(Refs(types), bytes, j)
  {
    hide SetField, GetField, Refs, Size, Lo, Hi;
    FieldsApart(types);
    var refs := Refs(types);
    assert TableFits(refs, |bytes|);
    if writes != [] {
      var k := |writes| - 1;
      CommittedWrites(types, bytes, writes[..k], j);
      var before := SetAll(refs, bytes, writes[..k]);
      if before.Ok? && SetField(refs, before.value, writes[k].0, writes[k].1).Ok? {
        SetFieldTyped(refs, before.value, writes[k].0, writes[k].1);
        FieldIndependence(types, before.value, writes[k].0, writes[k].1);
      }
    }
  }

  /** A write succeeds exactly on an existing field and with a value of its type; otherwise the error says which it is. */
  lemma SetFieldTyped(fields: seq<FieldRef>, bytes: Bytes, index: nat, v: Value)
    requires TableFits(fields, |bytes|)
    ensures var r := SetField(fields, bytes, index, v);
      if index >= |fields| then r == Err(IndexOutOfRange(index, |fields|))
      else if fields[index].ty != TypeOf(v) then r == Err(TypeMismatch(index, fields[index].ty, TypeOf(v)))
      else r.Ok?
  {
    if index < |fields| && fields[index].ty == TypeOf(v) { EncodeLength(bytes, fields[index], v); }
  }
}
