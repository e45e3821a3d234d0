/** The device declaration (crates/pnio/src/config.rs): building it, its C-SDU budget, and the
    model the rest of the stack is driven by. Station name, identity and I&M0 checks are not
    part of this model. */
module DeviceConfigs {
  import opened Wire
  import opened Fields

  datatype SubmoduleSpec = SubmoduleSpec(slot: u16, inputs: seq<FieldType>, outputs: seq<FieldType>)

  datatype Derived = Derived(inputs: seq<FieldRef>, inputLen: u16, outputs: seq<FieldRef>, outputLen: u16)

  datatype DeviceConfig = DeviceConfig(submodules: seq<SubmoduleSpec>, derived: seq<Derived>)

  // --- sorting by slot -------------------------------------------------------------

  predicate SortedBySlot(s: seq<SubmoduleSpec>) {
    forall i, j :: 0 <= i < j < |s| ==> s[i].slot <= s[j].slot
  }

  /** Inserts in front of the first spec with a larger slot. */
  function InsertBySlot(s: seq<SubmoduleSpec>, x: SubmoduleSpec): (r: seq<SubmoduleSpec>)
    ensures multiset(r) == multiset(s) + multiset{x}
  {
    if s == [] then [x]
    else if x.slot < s[0].slot then [x] + s
    else
      assert s == [s[0]] + s[1..];
      [s[0]] + InsertBySlot(s[1..], x)
  }

  /** The stable sort the builder applies. */
  function SortBySlot(s: seq<SubmoduleSpec>): (r: seq<SubmoduleSpec>)
    ensures multiset(r) == multiset(s)
  {
    if s == [] then []
    else
      assert s == s[..|s| - 1] + [s[|s| - 1]];
      InsertBySlot(SortBySlot(s[..|s| - 1]), s[|s| - 1])
  }

  lemma {:induction false} InsertKeepsSorted(s: seq<SubmoduleSpec>, x: SubmoduleSpec)
    requires SortedBySlot(s)
    ensures SortedBySlot(InsertBySlot(s, x))
  {
    if s != [] && x.slot >= s[0].slot {
      InsertKeepsSorted(s[1..], x);
      var rest := InsertBySlot(s[1..], x);
      forall y | y in rest ensures s[0].slot <= y.slot {
        assert y in multiset(rest);
        if y != x { assert y in s[1..]; }
      }
      forall i, j | 0 <= i < j < |rest| + 1
        ensures ([s[0]] + rest)[i].slot <= ([s[0]] + rest)[j].slot
      {
        if i == 0 { assert rest[j - 1] in rest; }
      }
    }
  }

  lemma {:induction false} SortSorts(s: seq<SubmoduleSpec>)
    ensures SortedBySlot(SortBySlot(s))
  {
    if s != [] {
      SortSorts(s[..|s| - 1]);
      InsertKeepsSorted(SortBySlot(s[..|s| - 1]), s[|s| - 1]);
    }
  }

  // --- the C-SDU budget ------------------------------------------------------------

  function Own(fields: seq<FieldType>, len: nat): nat { if fields == [] then 0 else len + 1 }

  function Echo(fields: seq<FieldType>): nat { if fields == [] then 0 else 1 }

  /** Input and Output CR lengths of the first `n` submodules: three DAP bytes, data plus IOPS in a
      submodule's own direction, one IOCS byte in the other. */
  function CrLengths(subs: seq<SubmoduleSpec>, derived: seq<Derived>, n: nat): (nat, nat)
    requires n <= |subs| == |derived|
  {
    if n == 0 then (3, 3)
    else
      var (i, o) := CrLengths(subs, derived, n - 1);
      var sm, d := subs[n - 1], derived[n - 1];
      (i + Own(sm.inputs, d.inputLen) + Echo(sm.outputs), o + Own(sm.outputs, d.outputLen) + Echo(sm.inputs))
  }

  method CrLengthsOf(subs: seq<SubmoduleSpec>, derived: seq<Derived>) returns (input: nat, output: nat)
    requires |subs| == |derived|
    ensures (input, output) == CrLengths(subs, derived, |subs|)
  {
    input, output := 3, 3;
    for k := 0 to |subs|
      invariant (input, output) == CrLengths(subs, derived, k)
    {
      var hasIn, hasOut := subs[k].inputs != [], subs[k].outputs != [];
      if hasIn { input := input + derived[k].inputLen + 1; }
      if hasOut { output := output + derived[k].outputLen + 1; }
      if hasOut { input := input + 1; }
      if hasIn { output := output + 1; }
    }
  }

  // --- building ----------------------------------------------------------------------

  function DerivedOf(sm: SubmoduleSpec): Derived
    requires Size(sm.inputs) <= MAX_SUBMODULE_BYTES && Size(sm.outputs) <= MAX_SUBMODULE_BYTES
  {
    Derived(Refs(sm.inputs), Size(sm.inputs), Refs(sm.outputs), Size(sm.outputs))
  }

  predicate SpecOk(sm: SubmoduleSpec) {
    && sm.slot != 0 && (sm.inputs != [] || sm.outputs != [])
    && Size(sm.inputs) <= MAX_SUBMODULE_BYTES && Size(sm.outputs) <= MAX_SUBMODULE_BYTES
  }

  predicate DistinctSlots(subs: seq<SubmoduleSpec>) {
    forall i, j :: 0 <= i < j < |subs| ==> subs[i].slot != subs[j].slot
  }

  predicate AllOk(subs: seq<SubmoduleSpec>) { forall i :: 0 <= i < |subs| ==> SpecOk(subs[i]) }

  function DerivedAll(subs: seq<SubmoduleSpec>): seq<Derived>
    requires AllOk(subs)
  {
    seq(|subs|, i requires 0 <= i < |subs| => DerivedOf(subs[i]))
  }

  function Totals(subs: seq<SubmoduleSpec>): (nat, nat)
    requires AllOk(subs)
  {
    CrLengths(subs, DerivedAll(subs), |subs|)
  }

  /** Every submodule acceptable, slots distinct, both totals within the frame budget. */
  predicate Buildable(subs: seq<SubmoduleSpec>) {
    && subs != [] && AllOk(subs) && DistinctSlots(subs)
    && Totals(subs).0 <= MAX_SUBMODULE_BYTES && Totals(subs).1 <= MAX_SUBMODULE_BYTES
  }

  /** The error names a violation the declaration really has. */
  predicate Blames(e: ConfigError, subs: seq<SubmoduleSpec>) {
    match e
    case NoSubmodule => subs == []
    case SlotZeroReserved => exists s <- subs :: s.slot == 0
    case DuplicateSlot(n) => exists i, j | 0 <= i < j < |subs| :: subs[i].slot == subs[j].slot == n
    case EmptySubmodule(n) => exists s <- subs :: s.slot == n && s.inputs == [] && s.outputs == []
    case TooLong(n, bytes) =>
      exists s <- subs :: s.slot == n && bytes > MAX_SUBMODULE_BYTES
                          && (Size(s.inputs) == bytes || Size(s.outputs) == bytes)
    case TooLongTotal(isOutput, bytes) =>
      AllOk(subs) && bytes > MAX_SUBMODULE_BYTES && bytes == if isOutput then Totals(subs).1 else Totals(subs).0
  }

  method Build(declared: seq<SubmoduleSpec>) returns (r: Result<DeviceConfig, ConfigError>)
    ensures var subs := SortBySlot(declared);
      && (r.Ok? <==> Buildable(subs))
      && (r.Ok? ==> r.value == DeviceConfig(subs, DerivedAll(subs)))
      && (r.Err? ==> Blames(r.error, subs))
  {
    hide SortBySlot, Size, CrLengths, SpecOk, DerivedOf;
    var subs := SortBySlot(declared);
    SortSorts(declared);
    assert |subs| == |declared| by { assert |multiset(subs)| == |multiset(declared)|; }
    if declared == [] { return Err(NoSubmodule); }
    var derived := DeriveAll(subs);
    if derived.Err? { return Err(derived.error); }
    var input, output := CrLengthsOf(subs, derived.value);
    if input > MAX_SUBMODULE_BYTES { return Err(TooLongTotal(false, input)); }
    if output > MAX_SUBMODULE_BYTES { return Err(TooLongTotal(true, output)); }
    return Ok(DeviceConfig(subs, derived.value));
  }

  /** The checking loop of `Build`, over the sorted submodules. */
  method DeriveAll(subs: seq<SubmoduleSpec>) returns (r: Result<seq<Derived>, ConfigError>)
    requires SortedBySlot(subs)
    ensures r.Ok? <==> AllOk(subs) && DistinctSlots(subs)
    ensures r.Ok? ==> r.value == DerivedAll(subs)
    ensures r.Err? ==> Blames(r.error, subs) && !r.error.TooLongTotal? && !r.error.NoSubmodule?
  {
    hide Size, Refs, CrLengths;
    var derived: seq<Derived> := [];
    for i := 0 to |subs|
      invariant |derived| == i
      invariant forall k :: 0 <= k < i ==> SpecOk(subs[k]) && derived[k] == DerivedOf(subs[k])
      invariant forall k, m :: 0 <= k < m < i ==> subs[k].slot != subs[m].slot
    {
      var sm := subs[i];
      assert sm in subs;
      if sm.slot == 0 { return Err(SlotZeroReserved); }
      if i > 0 && subs[i - 1].slot == sm.slot { return Err(DuplicateSlot(sm.slot)); }
      if sm.inputs == [] && sm.outputs == [] { return Err(EmptySubmodule(sm.slot)); }
      var a := CheckedLayout(sm.slot, sm.inputs);
      if a.Err? { return Err(a.error); }
      var b := CheckedLayout(sm.slot, sm.outputs);
      if b.Err? { return Err(b.error); }
      derived := derived + [Derived(a.value.0, a.value.1, b.value.0, b.value.1)];
    }
    assert derived == DerivedAll(subs);
    return Ok(derived);
  }
}
