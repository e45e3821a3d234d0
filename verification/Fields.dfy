/** Packing of typed fields into a submodule's bytes (crates/pnio/src/config.rs, `layout` and
    `checked_layout`) and the GSDML description of the same packing (crates/pnio/src/gsdml.rs,
    `items`). */
module Fields {
  import opened Wire

  datatype FieldType = Bool | Int | Word | Dint | Real

  /** Size of a byte-aligned type; `None` for the bit-packed `Bool`. */
  function ByteLen(ty: FieldType): Option<nat> {
    match ty case Bool => None case Int => Some(2) case Word => Some(2) case Dint => Some(4) case Real => Some(4)
  }

  datatype FieldRef = FieldRef(byte: u16, bit: nat, ty: FieldType)

  const MAX_SUBMODULE_BYTES := 1440

  // --- the packing rule ----------------------------------------------------------

  /** Loop state of `layout`: the refs so far, the first free byte, and the open bit byte. */
  datatype Packing = Packing(refs: seq<FieldRef>, next: nat, open: Option<(nat, nat)>)

  /** The cast of a byte position to 16 bits. */
  function At(b: nat): (r: u16)
    ensures b < 0x1_0000 ==> r == b
  {
    b % 0x1_0000
  }

  function Pack1(p: Packing, ty: FieldType): Packing {
    match ByteLen(ty)
    case None =>
      var (byte, bit, next) :=
        if p.open.Some? && p.open.value.1 < 8 then (p.open.value.0, p.open.value.1, p.next)
        else (p.next, 0, p.next + 1);
      Packing(p.refs + [FieldRef(At(byte), bit, ty)], next, Some((byte, bit + 1)))
    case Some(n) =>
      Packing(p.refs + [FieldRef(At(p.next), 0, ty)], p.next + n, None)
  }

  /** The state after the first `n` fields. */
  function Pack(fields: seq<FieldType>, n: nat): Packing
    requires n <= |fields|
  {
    if n == 0 then Packing([], 0, None) else Pack1(Pack(fields, n - 1), fields[n - 1])
  }

  function Refs(fields: seq<FieldType>): seq<FieldRef> { Pack(fields, |fields|).refs }

  function Size(fields: seq<FieldType>): nat { Pack(fields, |fields|).next }

  method LayoutFields(fields: seq<FieldType>) returns (refs: seq<FieldRef>, len: u16)
    ensures refs == Refs(fields) && len == At(Size(fields))
  {
    refs := [];
    var next: nat := 0;
    var open: Option<(nat, nat)> := None;
    for i := 0 to |fields|
      invariant Packing(refs, next, open) == Pack(fields, i)
    {
      var ty := fields[i];
      match ByteLen(ty) {
        case None =>
          var byte, bit;
          if open.Some? && open.value.1 < 8 {
            byte, bit := open.value.0, open.value.1;
          } else {
            byte, bit := next, 0;
            next := next + 1;
          }
          open := Some((byte, bit + 1));
          refs := refs + [FieldRef(At(byte), bit, ty)];
        case Some(n) =>
          open := None;
          refs := refs + [FieldRef(At(next), 0, ty)];
          next := next + n;
      }
    }
    len := At(next);
  }

  // --- spans -----------------------------------------------------------------------

  /** First bit of a field, counting from the start of the submodule. */
  function Lo(r: FieldRef): nat { 8 * r.byte + r.bit }

  /** One past its last bit. */
  function Hi(r: FieldRef): nat {
    Lo(r) + match ByteLen(r.ty) case None => 1 case Some(n) => 8 * n
  }

  /** First bit the next field may take. */
  function Frontier(p: Packing): nat {
    if p.open.Some? && p.open.value.1 < 8 then 8 * p.open.value.0 + p.open.value.1 else 8 * p.next
  }

  ghost predicate Shape(p: Packing, fields: seq<FieldType>, n: nat)
    requires n <= |fields|
  {
    && |p.refs| == n
    && OpenByteIsLast(p)
    && (forall i :: 0 <= i < n ==>
          p.refs[i].ty == fields[i] && p.refs[i].bit < 8 && (!p.refs[i].ty.Bool? ==> p.refs[i].bit == 0))
  }

  ghost predicate InOrder(p: Packing) {
    && (forall i, j :: 0 <= i < j < |p.refs| ==> Hi(p.refs[i]) <= Lo(p.refs[j]))
    && (forall i :: 0 <= i < |p.refs| ==> Hi(p.refs[i]) <= Frontier(p))
  }

  lemma {:induction false} PackShape(fields: seq<FieldType>, n: nat)
    requires n <= |fields|
    ensures Shape(Pack(fields, n), fields, n)
  {
    if n > 0 {
      hide At;
      PackShape(fields, n - 1);
    }
  }

  predicate OpenByteIsLast(p: Packing) {
    p.open.Some? ==> p.open.value.0 + 1 == p.next && p.open.value.1 <= 8
  }

  /** The field just placed starts at the old frontier and ends at the new one. */
  lemma NewSpan(p: Packing, ty: FieldType)
    requires OpenByteIsLast(p) && Pack1(p, ty).next <= 0x1_0000
    ensures var p' := Pack1(p, ty);
      && p.next <= p'.next && |p'.refs| == |p.refs| + 1 && p'.refs[..|p.refs|] == p.refs
      && var r := p'.refs[|p.refs|];
      && Frontier(p) <= Lo(r) && Hi(r) <= Frontier(p') && Lo(r) <= Hi(r)
  {
    hide At;
  }

  lemma InOrderStep(p: Packing, ty: FieldType)
    requires OpenByteIsLast(p) && Pack1(p, ty).next <= 0x1_0000 && InOrder(p)
    ensures InOrder(Pack1(p, ty))
  {
    hide Pack1, Lo, Hi, Frontier;
    NewSpan(p, ty);
    var p' := Pack1(p, ty);
    assert forall i :: 0 <= i < |p.refs| ==> p'.refs[i] == p'.refs[..|p.refs|][i] == p.refs[i];
  }

  lemma {:induction false} PackInOrder(fields: seq<FieldType>, n: nat)
    requires n <= |fields| && Pack(fields, n).next <= 0x1_0000
    ensures InOrder(Pack(fields, n))
  {
    if n > 0 {
      hide Pack1, Lo, Hi, Frontier;
      PackShape(fields, n - 1);
      NewSpan(Pack(fields, n - 1), fields[n - 1]);
      PackInOrder(fields, n - 1);
      InOrderStep(Pack(fields, n - 1), fields[n - 1]);
    }
  }

  /** Fields that fit take pairwise disjoint bits, in declaration order, inside the computed length;
      byte types start on a byte boundary. */
  lemma FieldsApart(fields: seq<FieldType>)
    requires Size(fields) <= 0xFFFF
    ensures var refs := Refs(fields);
      && |refs| == |fields|
      && (forall i :: 0 <= i < |refs| ==> refs[i].ty == fields[i] && refs[i].bit < 8)
      && (forall i :: 0 <= i < |refs| && !refs[i].ty.Bool? ==> refs[i].bit == 0)
      && (forall i, j :: 0 <= i < j < |refs| ==> Hi(refs[i]) <= Lo(refs[j]))
      && (forall i :: 0 <= i < |refs| ==> Hi(refs[i]) <= 8 * Size(fields))
  {
    PackShape(fields, |fields|);
    PackInOrder(fields, |fields|);
  }

  /** The next byte boundary. */
  function RoundUp(bits: nat): nat { (bits + 7) / 8 * 8 }

  /** The packing ends at bit `end`, in a bit byte or not. */
  predicate EndsAt(p: Packing, end: nat, inBits: bool) {
    && 8 * p.next == RoundUp(end) && (p.open.Some? <==> inBits)
    && (inBits ==> 8 * p.open.value.0 + p.open.value.1 == end && p.open.value.0 + 1 == p.next && 1 <= p.open.value.1 <= 8)
  }

  lemma PackTight(p: Packing, ty: FieldType, end: nat, inBits: bool)
    requires EndsAt(p, end, inBits) && Pack1(p, ty).next <= 0xFFFF
    ensures var p' := Pack1(p, ty);
      && |p'.refs| == |p.refs| + 1 && p'.refs[..|p.refs|] == p.refs
      && var r := p'.refs[|p.refs|];
         Lo(r) == (if inBits && ty.Bool? then end else RoundUp(end)) && EndsAt(p', Hi(r), ty.Bool?)
  {
    hide At;
  }

  /** Where field `i` is to start: a bool after a bool at the next bit, any other at the next byte boundary. */
  function StartOf(refs: seq<FieldRef>, fields: seq<FieldType>, i: nat): nat
    requires i < |refs| <= |fields|
  {
    if i == 0 then 0
    else if fields[i - 1].Bool? && fields[i].Bool? then Hi(refs[i - 1]) else RoundUp(Hi(refs[i - 1]))
  }

  predicate Tight(refs: seq<FieldRef>, fields: seq<FieldType>)
    requires |refs| <= |fields|
  {
    forall i :: 0 <= i < |refs| ==> Lo(refs[i]) == StartOf(refs, fields, i)
  }

  lemma {:induction false} PackedTight(fields: seq<FieldType>, n: nat)
    requires n <= |fields| && Pack(fields, n).next <= 0xFFFF
    ensures var p := Pack(fields, n);
      && |p.refs| == n && Tight(p.refs, fields)
      && EndsAt(p, if n == 0 then 0 else Hi(p.refs[n - 1]), n > 0 && fields[n - 1].Bool?)
  {
    hide Pack1, Lo, Hi, RoundUp, EndsAt;
    if n == 0 {
      StartsTight();
    } else {
      var p := Pack(fields, n - 1);
      NextGrows(p, fields[n - 1]);
      PackedTight(fields, n - 1);
      PackTight(p, fields[n - 1], if n == 1 then 0 else Hi(p.refs[n - 2]), n > 1 && fields[n - 2].Bool?);
      var refs := Pack(fields, n).refs;
      StartsTight();
      forall i | 0 <= i < n ensures Lo(refs[i]) == StartOf(refs, fields, i) {
        if i > 0 { assert refs[i - 1] == refs[..n - 1][i - 1] == p.refs[i - 1]; }
        if i < n - 1 { assert refs[i] == refs[..n - 1][i] == p.refs[i] && Lo(p.refs[i]) == StartOf(p.refs, fields, i); }
      }
    }
  }

  lemma StartsTight()
    ensures RoundUp(0) == 0 && EndsAt(Packing([], 0, None), 0, false)
  {
  }

  lemma NextGrows(p: Packing, ty: FieldType)
    ensures p.next <= Pack1(p, ty).next
  {
  }

  /** For every field list: no bit is wasted, and the length is the end of the last field. */
  lemma NoGaps(fields: seq<FieldType>)
    requires Size(fields) <= 0xFFFF
    ensures var refs := Refs(fields);
      && |refs| == |fields| && Tight(refs, fields)
      && 8 * Size(fields) == if fields == [] then 0 else RoundUp(Hi(refs[|refs| - 1]))
  {
    hide Tight, Hi;
    PackedTight(fields, |fields|);
    StartsTight();
  }

  // --- the separate size count -----------------------------------------------------

  datatype Count = Count(bytes: nat, openBits: nat)

  function NextBit(k: nat): (r: nat)
    ensures k < 8 ==> r == if k == 7 then 0 else k + 1
  {
    (k + 1) % 8
  }

  function Count1(c: Count, ty: FieldType): Count {
    match ByteLen(ty)
    case None => Count(if c.openBits == 0 then c.bytes + 1 else c.bytes, NextBit(c.openBits))
    case Some(k) => Count(c.bytes + k, 0)
  }

  function CountUpto(fields: seq<FieldType>, n: nat): Count
    requires n <= |fields|
  {
    if n == 0 then Count(0, 0) else Count1(CountUpto(fields, n - 1), fields[n - 1])
  }

  predicate Counts(c: Count, p: Packing) {
    && c.bytes == p.next
    && c.openBits == (if p.open.Some? && p.open.value.1 < 8 then p.open.value.1 else 0)
    && (p.open.Some? ==> p.open.value.1 > 0)
  }

  lemma CountStep(c: Count, p: Packing, ty: FieldType)
    requires OpenByteIsLast(p) && Counts(c, p)
    ensures Counts(Count1(c, ty), Pack1(p, ty))
  {
    hide At, NextBit;
  }

  /** The guard's own byte count is the length the packing computes. */
  lemma {:induction false} CountIsSize(fields: seq<FieldType>, n: nat)
    requires n <= |fields|
    ensures Counts(CountUpto(fields, n), Pack(fields, n))
  {
    if n > 0 {
      hide Pack1, Count1, Counts;
      CountIsSize(fields, n - 1);
      PackShape(fields, n - 1);
      CountStep(CountUpto(fields, n - 1), Pack(fields, n - 1), fields[n - 1]);
    } else {
      assert Counts(Count(0, 0), Packing([], 0, None));
    }
  }

  datatype ConfigError =
    | SlotZeroReserved
    | DuplicateSlot(slot: u16)
    | EmptySubmodule(slot: u16)
    | NoSubmodule
    | TooLong(slot: u16, bytes: nat)
    | TooLongTotal(isOutput: bool, bytes: nat)

  /** `layout` behind the size guard: refused exactly when the packing exceeds the limit. */
  method CheckedLayout(slot: u16, fields: seq<FieldType>) returns (r: Result<(seq<FieldRef>, u16), ConfigError>)
    ensures r == if Size(fields) > MAX_SUBMODULE_BYTES then Err(TooLong(slot, Size(fields)))
                 else Ok((Refs(fields), Size(fields)))
  {
    var n := 0;
    var openBits := 0;
    for i := 0 to |fields|
      invariant n >= 0 && 0 <= openBits < 8
      invariant Count(n, openBits) == CountUpto(fields, i)
    {
      match ByteLen(fields[i]) {
        case None =>
          if openBits == 0 { n := n + 1; }
          openBits := NextBit(openBits);
        case Some(k) =>
          openBits := 0;
          n := n + k;
      }
    }
    CountIsSize(fields, |fields|);
    if n > MAX_SUBMODULE_BYTES { return Err(TooLong(slot, n)); }
    var refs, len := LayoutFields(fields);
    return Ok((refs, len));
  }

  // --- GSDML data items --------------------------------------------------------------

  datatype Item = Scalar(ty: FieldType, index: nat) | Bits(group: seq<(nat, FieldRef)>)

  function AddItem(items: seq<Item>, i: nat, f: FieldRef): seq<Item> {
    if !f.ty.Bool? then items + [Scalar(f.ty, i)]
    else
      var k := |items| - 1;
      if k >= 0 && items[k].Bits? && items[k].group != []
         && items[k].group[|items[k].group| - 1].1.byte == f.byte
      then items[..k] + [Bits(items[k].group + [(i, f)])]
      else items + [Bits([(i, f)])]
  }

  function ItemsUpto(refs: seq<FieldRef>, n: nat): seq<Item>
    requires n <= |refs|
  {
    if n == 0 then [] else AddItem(ItemsUpto(refs, n - 1), n - 1, refs[n - 1])
  }

  method Items(refs: seq<FieldRef>) returns (out: seq<Item>)
    ensures out == ItemsUpto(refs, |refs|)
  {
    hide AddItem;
    out := [];
    for i := 0 to |refs|
      invariant out == ItemsUpto(refs, i)
    {
      out := Push(out, i, refs[i]);
    }
  }

  /** The loop's body: a new item, or one more bit in the last group of the same octet. */
  method Push(items: seq<Item>, i: nat, f: FieldRef) returns (out: seq<Item>)
    ensures out == AddItem(items, i, f)
  {
    if f.ty.Bool? {
      var k := |items| - 1;
      if k >= 0 && items[k].Bits? && items[k].group != []
         && items[k].group[|items[k].group| - 1].1.byte == f.byte {
        out := items[..k] + [Bits(items[k].group + [(i, f)])];
      } else {
        out := items + [Bits([(i, f)])];
      }
    } else {
      out := items + [Scalar(f.ty, i)];
    }
  }

  function ItemSize(it: Item): nat {
    match it case Scalar(ty, _) => (if ByteLen(ty).Some? then ByteLen(ty).value else 1) case Bits(_) => 1
  }

  /** The field indices an item covers. */
  function Indices(it: Item): seq<nat> {
    match it
    case Scalar(_, i) => [i]
    case Bits(g) => seq(|g|, k requires 0 <= k < |g| => g[k].0)
  }

  function AllIndices(items: seq<Item>): seq<nat> {
    if items == [] then [] else AllIndices(items[..|items| - 1]) + Indices(items[|items| - 1])
  }

  /** The byte offset the controller computes for what follows the given items. */
  function Offset(items: seq<Item>): nat {
    if items == [] then 0 else Offset(items[..|items| - 1]) + ItemSize(items[|items| - 1])
  }

  function Upto(n: nat): seq<nat> { seq(n, i => i) }

  /** An item at byte offset `off` describes the device's own placement of the fields it lists. */
  predicate Describes(it: Item, off: nat, refs: seq<FieldRef>) {
    match it
    case Scalar(ty, i) => i < |refs| && refs[i].ty == ty && !ty.Bool? && refs[i].byte == off
    case Bits(g) =>
      && 1 <= |g| <= 8
      && forall k :: 0 <= k < |g| ==>
           g[k].0 < |refs| && g[k].1 == refs[g[k].0] && g[k].1.byte == off && g[k].1.bit == k && g[k].1.ty.Bool?
  }

  ghost predicate Agree(items: seq<Item>, p: Packing) {
    && AllIndices(items) == Upto(|p.refs|)
    && Offset(items) == p.next
    && (forall k :: 0 <= k < |items| ==> Describes(items[k], Offset(items[..k]), p.refs))
    && (p.open.Some? <==> items != [] && items[|items| - 1].Bits?)
    && (p.open.Some? ==> |items[|items| - 1].group| == p.open.value.1)
  }

  lemma UptoNext(n: nat)
    ensures Upto(n + 1) == Upto(n) + [n]
  {
  }

  /** Facts about appending an item. */
  lemma ItemAppend(items: seq<Item>, it: Item)
    ensures AllIndices(items + [it]) == AllIndices(items) + Indices(it)
    ensures Offset(items + [it]) == Offset(items) + ItemSize(it)
  {
    assert (items + [it])[..|items|] == items;
  }

  lemma DescribesMore(it: Item, off: nat, refs: seq<FieldRef>, r: FieldRef)
    requires Describes(it, off, refs)
    ensures Describes(it, off, refs + [r])
  {
  }

  /** Appending a new item for the field just placed. */
  lemma AgreeNewItem(items: seq<Item>, p: Packing, p': Packing, it: Item)
    requires Agree(items, p)
    requires |p'.refs| == |p.refs| + 1 && p'.refs[..|p.refs|] == p.refs
    requires Indices(it) == [|p.refs|] && p'.next == p.next + ItemSize(it)
    requires Describes(it, p.next, p'.refs)
    requires p'.open.Some? <==> it.Bits?
    requires p'.open.Some? ==> |it.group| == p'.open.value.1
    ensures Agree(items + [it], p')
  {
    hide AllIndices, Offset, Describes, Indices, ItemSize;
    var all := items + [it];
    ItemAppend(items, it);
    UptoNext(|p.refs|);
    forall k | 0 <= k < |all| ensures Describes(all[k], Offset(all[..k]), p'.refs) {
      if k < |items| {
        assert all[..k] == items[..k];
        assert p'.refs == p.refs + [p'.refs[|p.refs|]];
        DescribesMore(items[k], Offset(items[..k]), p.refs, p'.refs[|p.refs|]);
      } else {
        assert all[..k] == items;
      }
    }
  }

  lemma DescribesExtended(g: seq<(nat, FieldRef)>, off: nat, refs: seq<FieldRef>, r: FieldRef)
    requires Describes(Bits(g), off, refs) && |g| < 8
    requires r.ty.Bool? && r.byte == off && r.bit == |g|
    ensures Describes(Bits(g + [(|refs|, r)]), off, refs + [r])
  {
  }

  /** The open bit byte is the last item's group. */
  lemma LastGroup(items: seq<Item>, p: Packing)
    requires Agree(items, p) && OpenByteIsLast(p) && p.open.Some?
    ensures items != [] && var k := |items| - 1;
      && items[k].Bits? && |items[k].group| == p.open.value.1 > 0
      && Offset(items[..k]) == p.open.value.0
      && Describes(items[k], p.open.value.0, p.refs)
      && items[k].group[|items[k].group| - 1].1.byte == p.open.value.0
  {
    hide AllIndices, Offset;
    var k := |items| - 1;
    ItemAppend(items[..k], items[k]);
    assert items == items[..k] + [items[k]];
  }

  /** Extending the last bit group by the field just placed. */
  lemma AgreeExtend(items: seq<Item>, p: Packing, p': Packing, r: FieldRef)
    requires Agree(items, p) && OpenByteIsLast(p) && p.open.Some? && p.open.value.1 < 8
    requires items != [] && items[|items| - 1].Bits?
    requires p'.refs == p.refs + [r]
    requires r.ty.Bool? && r.byte == p.open.value.0 && r.bit == p.open.value.1
    requires p'.next == p.next && p'.open == Some((p.open.value.0, p.open.value.1 + 1))
    ensures Agree(items[..|items| - 1] + [Bits(items[|items| - 1].group + [(|p.refs|, r)])], p')
  {
    hide AllIndices, Offset, Describes;
    LastGroup(items, p);
    var k := |items| - 1;
    var pre, g := items[..k], items[k].group;
    var it := Bits(g + [(|p.refs|, r)]);
    var all := pre + [it];
    ItemAppend(pre, items[k]);
    assert items == pre + [items[k]];
    ItemAppend(pre, it);
    UptoNext(|p.refs|);
    assert Indices(it) == Indices(items[k]) + [|p.refs|];
    assert AllIndices(all) == AllIndices(items) + [|p.refs|];
    DescribesExtended(g, p.open.value.0, p.refs, r);
    forall m | 0 <= m < |all| ensures Describes(all[m], Offset(all[..m]), p'.refs) {
      if m < k {
        assert all[..m] == items[..m];
        DescribesMore(items[m], Offset(items[..m]), p.refs, r);
      } else {
        assert all[..m] == pre;
      }
    }
  }

  lemma AgreeStep(items: seq<Item>, p: Packing, ty: FieldType)
    requires Agree(items, p) && OpenByteIsLast(p) && Pack1(p, ty).next <= 0x1_0000
    ensures var p' := Pack1(p, ty); Agree(AddItem(items, |p.refs|, p'.refs[|p.refs|]), p')
  {
    hide At, Agree;
    var p' := Pack1(p, ty);
    var r := p'.refs[|p.refs|];
    assert p'.refs == p.refs + [r];
    if !ty.Bool? {
      AgreeNewItem(items, p, p', Scalar(ty, |p.refs|));
    } else {
      if p.open.Some? { LastGroup(items, p); } else { NoLastGroup(items, p); }
      if p.open.Some? && p.open.value.1 < 8 {
        AgreeExtend(items, p, p', r);
      } else {
        var it := Bits([(|p.refs|, r)]);
        assert Indices(it) == [|p.refs|];
        AgreeNewItem(items, p, p', it);
      }
    }
  }

  lemma NoLastGroup(items: seq<Item>, p: Packing)
    requires Agree(items, p) && p.open.None?
    ensures items == [] || !items[|items| - 1].Bits?
  {
  }

  lemma {:induction false} ItemsAgree(fields: seq<FieldType>, n: nat)
    requires n <= |fields| && Size(fields) <= 0xFFFF
    ensures Pack(fields, n).next <= 0x1_0000 && |Pack(fields, n).refs| == n
    ensures n <= |Refs(fields)| && Pack(fields, n).refs == Refs(fields)[..n]
    ensures Agree(ItemsUpto(Refs(fields), n), Pack(fields, n))
  {
    hide Pack1, AddItem, Agree;
    PackPrefix(fields, n);
    PackShape(fields, n);
    if n > 0 {
      ItemsAgree(fields, n - 1);
      PackShape(fields, n - 1);
      AgreeStep(ItemsUpto(Refs(fields), n - 1), Pack(fields, n - 1), fields[n - 1]);
      assert Refs(fields)[..n][n - 1] == Refs(fields)[n - 1];
    } else {
      AgreeNothing();
    }
  }

  lemma AgreeNothing()
    ensures Agree([], Packing([], 0, None))
  {
  }

  /** The refs of a prefix are a prefix of the refs. */
  lemma {:induction false} PackPrefix(fields: seq<FieldType>, n: nat)
    requires n <= |fields|
    ensures Pack(fields, n).next <= Size(fields)
    ensures |Pack(fields, n).refs| <= |Refs(fields)|
    ensures Pack(fields, n).refs == Refs(fields)[..|Pack(fields, n).refs|]
    decreases |fields| - n
  {
    if n < |fields| {
      hide At;
      PackPrefix(fields, n + 1);
      var p, p' := Pack(fields, n), Pack(fields, n + 1);
      assert p'.refs[..|p.refs|] == p.refs;
      assert Refs(fields)[..|p'.refs|][..|p.refs|] == Refs(fields)[..|p.refs|];
    }
  }

  /** The GSDML describes the device's packing: its items list every field once, in declaration
      order; a bit group is one byte holding bits 0 .. k - 1 with k at most 8; and the sum of the
      sizes before an item is the byte the device uses for it. */
  lemma GsdmlAgreement(fields: seq<FieldType>)
    requires Size(fields) <= 0xFFFF
    ensures var refs := Refs(fields); var items := ItemsUpto(refs, |refs|);
      && AllIndices(items) == Upto(|fields|)
      && Offset(items) == Size(fields)
      && forall k :: 0 <= k < |items| ==> Describes(items[k], Offset(items[..k]), refs)
  {
    hide AllIndices, Offset, Describes, Pack1, AddItem;
    ItemsAgree(fields, |fields|);
  }
}
