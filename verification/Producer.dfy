/** What the cyclic producer puts on the wire (crates/pnio/src/rt/engine.rs, `on_tick`),
    as a function of the layout, the input image and the tick history. */
module Producer {
  import opened Wire
  import opened Layout
  import opened RtFrames

  const IOXS_GOOD: u8 := 0x80

  // --- the C-SDU ---------------------------------------------------------------

  predicate InData(cr: CrLayout, i: int) {
    exists o <- cr.objects :: o.dataOff <= i < o.dataOff + o.dataLen
  }

  predicate IsStatus(cr: CrLayout, i: int) {
    (exists o <- cr.objects :: o.iopsOff == i) || (exists c <- cr.iocs :: c.iocsOff == i)
  }

  /** Input bytes inside the data ranges, GOOD in every status byte, zero everywhere else. */
  function ProducedCsdu(cr: CrLayout, inputs: Bytes): (c: Bytes)
    requires |inputs| >= cr.dataLength
    ensures |c| == cr.dataLength
  {
    seq(cr.dataLength, i requires 0 <= i < cr.dataLength =>
      if IsStatus(cr, i) then IOXS_GOOD else if InData(cr, i) then inputs[i] else 0)
  }

  /** In a sound table no byte is both payload and status. */
  lemma DataIsNotStatus(cr: CrLayout, o: IoObject, i: int)
    requires Sound(cr) && o in cr.objects && o.dataOff <= i < o.dataOff + o.dataLen
    ensures !IsStatus(cr, i)
  {
    var rs := ObjectRanges(cr.objects) + IocsRanges(cr.iocs);
    var k :| 0 <= k < |cr.objects| && cr.objects[k] == o;
    assert rs[k] == ObjectRange(o);
    forall p | p in cr.objects ensures p.iopsOff != i {
      var m :| 0 <= m < |cr.objects| && cr.objects[m] == p;
      assert rs[m] == ObjectRange(p);
      if m != k { assert Apart(rs[Min(m, k)], rs[Max(m, k)]); }
    }
    forall c | c in cr.iocs ensures c.iocsOff != i {
      var m :| 0 <= m < |cr.iocs| && cr.iocs[m] == c;
      assert rs[|cr.objects| + m] == Range(c.iocsOff, c.iocsOff + 1);
      assert Apart(rs[k], rs[|cr.objects| + m]);
    }
  }

  // --- the cycle counter ---------------------------------------------------------

  /** One tick: both the count of expirations and the product are truncated to 16 bits. */
  function NextCounter(counter: u16, step: u16, expirations: u32): u16 {
    (counter + step * (expirations % 0x1_0000) % 0x1_0000) % 0x1_0000
  }

  function CounterAfter(step: u16, ticks: seq<u32>): u16 {
    if ticks == [] then 0
    else NextCounter(CounterAfter(step, ticks[..|ticks| - 1]), step, ticks[|ticks| - 1])
  }

  lemma CounterNext(step: u16, ticks: seq<u32>, e: u32)
    ensures CounterAfter(step, ticks + [e]) == NextCounter(CounterAfter(step, ticks), step, e)
  {
    assert (ticks + [e])[..|ticks|] == ticks;
  }

  function Sum(ticks: seq<u32>): nat {
    if ticks == [] then 0 else Sum(ticks[..|ticks| - 1]) + ticks[|ticks| - 1]
  }

  lemma Shift(k: int, x: int)
    ensures (0x1_0000 * k + x) % 0x1_0000 == x % 0x1_0000
  {
  }

  lemma AddMod(a: int, b: int)
    ensures (a % 0x1_0000 + b % 0x1_0000) % 0x1_0000 == (a + b) % 0x1_0000
  {
  }

  lemma Distribute(step: int, q: int, r: int)
    ensures step * (0x1_0000 * q + r) == 0x1_0000 * (step * q) + step * r
  {
  }

  /** Truncating the count before multiplying loses nothing modulo 65536. */
  lemma TruncatedStep(step: u16, e: u32)
    ensures step * (e % 0x1_0000) % 0x1_0000 == step * e % 0x1_0000
  {
    var q, r := e / 0x1_0000, e % 0x1_0000;
    Distribute(step, q, r);
    assert e == 0x1_0000 * q + r;
    Shift(step * q, step * r);
  }

  lemma CounterStep(step: u16, total: nat, e: u32)
    ensures NextCounter(step * total % 0x1_0000, step, e) == step * (total + e) % 0x1_0000
  {
    TruncatedStep(step, e);
    AddMod(step * total, step * e);
    assert step * (total + e) == step * total + step * e;
  }

  /** After any run of ticks the counter is the step times all expirations, modulo 65536. */
  lemma {:induction false} CounterIsTotal(step: u16, ticks: seq<u32>)
    ensures CounterAfter(step, ticks) == step * Sum(ticks) % 0x1_0000
  {
    if ticks != [] {
      hide NextCounter;
      CounterIsTotal(step, ticks[..|ticks| - 1]);
      CounterStep(step, Sum(ticks[..|ticks| - 1]), ticks[|ticks| - 1]);
    }
  }

  // --- the frame -------------------------------------------------------------------

  function StatusByte(problem: bool): u8 {
    if problem then RUN_PRIMARY_VALID_PROBLEM else RUN_PRIMARY_VALID_OK
  }

  function TickFrame(cr: CrLayout, inputs: Bytes, counter: u16, problem: bool): RtFrame
    requires |inputs| >= cr.dataLength
  {
    RtFrame(cr.frameId, ProducedCsdu(cr, inputs), counter, StatusByte(problem), 0)
  }

  /** The bytes sent after the ticks `ticks`, the last of them carrying `inputs`. */
  function SentBytes(cr: CrLayout, ticks: seq<u32>, inputs: Bytes, problem: bool, dst: Mac, src: Mac): Bytes
    requires |inputs| >= cr.dataLength
  {
    FrameBytes(TickFrame(cr, inputs, CounterAfter(cr.cycleStep, ticks), problem), dst, src)
  }

  /** The padded C-SDU, octet by octet. */
  lemma PaddedCsdu(cr: CrLayout, inputs: Bytes)
    requires Sound(cr) && |inputs| >= cr.dataLength
    ensures var csdu := Padded(ProducedCsdu(cr, inputs));
      && |csdu| == Max(cr.dataLength, CSDU_MIN)
      && (forall o <- cr.objects ::
            && o.dataOff + o.dataLen == o.iopsOff < cr.dataLength
            && csdu[o.dataOff..o.dataOff + o.dataLen] == inputs[o.dataOff..o.dataOff + o.dataLen]
            && csdu[o.iopsOff] == 0x80)
      && (forall c <- cr.iocs :: c.iocsOff < cr.dataLength && csdu[c.iocsOff] == 0x80)
      && (forall i :: 0 <= i < |csdu| && !InData(cr, i) && !IsStatus(cr, i) ==> csdu[i] == 0)
  {
    hide PairwiseApart;
    var csdu := Padded(ProducedCsdu(cr, inputs));
    forall o | o in cr.objects
      ensures csdu[o.dataOff..o.dataOff + o.dataLen] == inputs[o.dataOff..o.dataOff + o.dataLen]
    {
      forall i | o.dataOff <= i < o.dataOff + o.dataLen ensures csdu[i] == inputs[i] {
        DataIsNotStatus(cr, o, i);
      }
    }
  }

  lemma StatusBits(problem: bool)
    ensures var s := StatusByte(problem); Primary(s) && DataValid(s) && ProviderRun(s) && StationOk(s) == !problem
  {
  }

  /** What the controller reads back from the frame of any tick of any run, for any layout that was
      built: every object's input bytes, every status byte GOOD, zeros elsewhere (padding included),
      the total of all expirations as cycle counter, and the problem bit. */
  lemma TickRefinement(cr: CrLayout, ticks: seq<u32>, inputs: Bytes, problem: bool, dst: Mac, src: Mac)
    requires Sound(cr) && |inputs| >= cr.dataLength
    ensures var r := ParseRt(SentBytes(cr, ticks, inputs, problem, dst, src));
      && r.Ok?
      && var (eth, rt) := r.value;
      && eth.dst == dst && eth.src == src && rt.frameId == cr.frameId && rt.transferStatus == 0
      && |rt.csdu| == Max(cr.dataLength, CSDU_MIN)
      && (forall o <- cr.objects ::
            && rt.csdu[o.dataOff..o.dataOff + o.dataLen] == inputs[o.dataOff..o.dataOff + o.dataLen]
            && rt.csdu[o.iopsOff] == 0x80)
      && (forall c <- cr.iocs :: rt.csdu[c.iocsOff] == 0x80)
      && (forall i :: 0 <= i < |rt.csdu| && !InData(cr, i) && !IsStatus(cr, i) ==> rt.csdu[i] == 0)
      && rt.cycleCounter == cr.cycleStep * Sum(ticks) % 0x1_0000
      && Primary(rt.dataStatus) && DataValid(rt.dataStatus) && ProviderRun(rt.dataStatus)
      && StationOk(rt.dataStatus) == !problem
  {
    hide CounterAfter, Sum, ParseRt, Sound, InData, IsStatus, ProducedCsdu, FrameBytes, Padded;
    var frame := TickFrame(cr, inputs, CounterAfter(cr.cycleStep, ticks), problem);
    RtRoundTrip(frame, dst, src);
    CounterIsTotal(cr.cycleStep, ticks);
    PaddedCsdu(cr, inputs);
    StatusBits(problem);
  }
}
