/** The cyclic engine of one AR (crates/pnio/src/rt/engine.rs): preallocated buffers changed in
    place, proved against the producer and consumer specifications. */
module Engine {
  import opened Wire
  import opened Layout
  import opened RtFrames
  import opened Producer
  import C = Consumer

  class RtEngine {
    const layout: LayoutTable
    const our: Mac
    const cpu: Mac

    const tx: array<u8>
    const txCsdu: array<u8>
    const rxCsdu: array<u8>
    const rxIopsGood: array<bool>
    const rxIocsGood: array<bool>

    var cycleCounter: u16
    var txCount: nat
    var missedTicks: nat
    var lastRx: Option<int>
    var lastRxCycleCounter: Option<u16>
    var watchdog: C.Watchdog
    var providerRun: bool
    var primary: bool
    var stats: C.RxStats

    /** The expirations of every tick so far. */
    ghost var ticks: seq<u32>

    ghost const Repr: set<object> := {this, tx, txCsdu, rxCsdu, rxIopsGood, rxIocsGood}

    function Consuming(): C.Consuming { C.Consuming(layout.outputCr, cpu) }

    /** The buffers have the layout's sizes and are not shared. */
    ghost predicate Shaped()
      reads this
    {
      && Sound(layout.inputCr) && Sound(layout.outputCr)
      && tx.Length == FrameLen(layout.inputCr.dataLength)
      && txCsdu.Length == layout.inputCr.dataLength
      && rxCsdu.Length == layout.outputCr.dataLength
      && rxIopsGood.Length == |layout.outputCr.objects|
      && rxIocsGood.Length == |layout.outputCr.iocs|
      && tx != txCsdu && tx != rxCsdu && txCsdu != rxCsdu && rxIopsGood != rxIocsGood
    }

    /** Bytes no object owns stay zero, and the counter counts the ticks. */
    ghost predicate Valid()
      reads Repr
    {
      && Shaped()
      && (forall i :: 0 <= i < txCsdu.Length && !InData(layout.inputCr, i) && !IsStatus(layout.inputCr, i)
            ==> txCsdu[i] == 0)
      && cycleCounter == CounterAfter(layout.inputCr.cycleStep, ticks)
    }

    /** The consumer's state as a value. */
    ghost function Rx(): C.Rx
      reads Repr
    {
      C.Rx(rxCsdu[..], rxIopsGood[..], rxIocsGood[..], lastRx, lastRxCycleCounter, watchdog,
           providerRun, primary, stats)
    }

    constructor (layout: LayoutTable, our: Mac, cpu: Mac)
      requires Sound(layout.inputCr) && Sound(layout.outputCr)
      ensures Valid() && fresh(Repr - {this})
      ensures this.layout == layout && this.our == our && this.cpu == cpu && ticks == []
      ensures Rx() == C.NewRx(Consuming())
    {
      this.layout, this.our, this.cpu := layout, our, cpu;
      tx := new u8[FrameLen(layout.inputCr.dataLength)](_ => 0);
      txCsdu := new u8[layout.inputCr.dataLength](_ => 0);
      rxCsdu := new u8[layout.outputCr.dataLength](_ => 0);
      rxIopsGood := new bool[|layout.outputCr.objects|](_ => false);
      rxIocsGood := new bool[|layout.outputCr.iocs|](_ => false);
      cycleCounter, txCount, missedTicks := 0, 0, 0;
      lastRx, lastRxCycleCounter := None, None;
      watchdog, providerRun, primary := C.WdNotArmed, false, false;
      stats := C.RxStats(0, 0, 0, 0, 0, 0);
      ticks := [];
    }

    /** Assembles the C-SDU of this tick in place. */
    method Assemble(inputs: Bytes)
      requires Shaped() && |inputs| >= layout.inputCr.dataLength
      requires forall i :: 0 <= i < txCsdu.Length && !InData(layout.inputCr, i) && !IsStatus(layout.inputCr, i)
                 ==> txCsdu[i] == 0
      modifies txCsdu
      ensures txCsdu[..] == ProducedCsdu(layout.inputCr, inputs)
    {
      var cr := layout.inputCr;
      ghost var zero := txCsdu[..];
      for k := 0 to |cr.objects|
        invariant forall i :: 0 <= i < txCsdu.Length ==>
                    txCsdu[i] == Written(cr, inputs, zero, k, 0, i)
      {
        var o := cr.objects[k];
        assert o in cr.objects;
        ghost var was := txCsdu[..];
        for i := o.dataOff to o.dataOff + o.dataLen
          invariant forall j :: 0 <= j < txCsdu.Length ==>
                      txCsdu[j] == if o.dataOff <= j < i then inputs[j] else was[j]
        {
          txCsdu[i] := inputs[i];
        }
        txCsdu[o.iopsOff] := IOXS_GOOD;
        forall i | 0 <= i < txCsdu.Length ensures txCsdu[i] == Written(cr, inputs, zero, k + 1, 0, i) {
          WrittenObject(cr, inputs, zero, k, i);
        }
      }
      for k := 0 to |cr.iocs|
        invariant forall i :: 0 <= i < txCsdu.Length ==>
                    txCsdu[i] == Written(cr, inputs, zero, |cr.objects|, k, i)
      {
        assert cr.iocs[k] in cr.iocs;
        txCsdu[cr.iocs[k].iocsOff] := IOXS_GOOD;
      }
      forall i | 0 <= i < txCsdu.Length ensures txCsdu[i] == ProducedCsdu(cr, inputs)[i] {
        WrittenAll(cr, inputs, zero, i);
      }
    }

    /** One tick: the frame to send. The buffer preallocated for it always suffices. */
    method OnTick(expirations: u32, inputs: Bytes, problem: bool) returns (frame: Bytes)
      requires Valid() && |inputs| >= layout.inputCr.dataLength
      modifies this`cycleCounter, this`txCount, this`missedTicks, this`ticks, tx, txCsdu
      ensures Valid() && ticks == old(ticks) + [expirations]
      ensures frame == SentBytes(layout.inputCr, ticks, inputs, problem, cpu, our)
      ensures txCount == old(txCount) + 1
      ensures missedTicks == old(missedTicks) + Max(expirations - 1, 0)
      ensures Rx() == old(Rx())
    {
      hide Sound, FrameBytes, NextCounter, CounterAfter, StatusByte, InData, IsStatus;
      var cr := layout.inputCr;
      Assemble(inputs);
      CounterNext(cr.cycleStep, ticks, expirations);
      cycleCounter := NextCounter(cycleCounter, cr.cycleStep, expirations);
      ticks := ticks + [expirations];
      var rt := RtFrame(cr.frameId, txCsdu[..], cycleCounter, StatusByte(problem), 0);
      var n := WriteFrame(rt, tx, cpu, our);
      txCount := txCount + 1;
      missedTicks := missedTicks + Max(expirations - 1, 0);
      assert tx[..] == FrameBytes(rt, cpu, our) + [];
      frame := tx[..n.value];
    }

    /** Copies an accepted C-SDU in and refreshes the good bits. */
    method TakeCsdu(csdu: Bytes)
      requires Shaped() && |csdu| >= layout.outputCr.dataLength
      modifies rxCsdu, rxIopsGood, rxIocsGood
      ensures var cut := csdu[..layout.outputCr.dataLength];
        Rx() == old(Rx()).(csdu := cut, iopsGood := C.IopsBits(layout.outputCr, cut),
                           iocsGood := C.IocsBits(layout.outputCr, cut))
    {
      var cr := layout.outputCr;
      for i := 0 to cr.dataLength
        invariant forall j :: 0 <= j < i ==> rxCsdu[j] == csdu[j]
      {
        rxCsdu[i] := csdu[i];
      }
      assert rxCsdu[..] == csdu[..cr.dataLength];
      for i := 0 to |cr.objects|
        invariant rxCsdu[..] == csdu[..cr.dataLength]
        invariant rxIopsGood[..i] == C.IopsBits(cr, csdu[..cr.dataLength])[..i]
      {
        assert cr.objects[i] in cr.objects;
        rxIopsGood[i] := C.Good(rxCsdu[cr.objects[i].iopsOff]);
      }
      for j := 0 to |cr.iocs|
        invariant rxCsdu[..] == csdu[..cr.dataLength]
        invariant rxIopsGood[..] == C.IopsBits(cr, csdu[..cr.dataLength])
        invariant rxIocsGood[..j] == C.IocsBits(cr, csdu[..cr.dataLength])[..j]
      {
        assert cr.iocs[j] in cr.iocs;
        rxIocsGood[j] := C.Good(rxCsdu[cr.iocs[j].iocsOff]);
      }
      assert rxIocsGood[..] == C.IocsBits(cr, csdu[..cr.dataLength]);
    }

    /** The effect of an accepted frame. */
    method Accept(rt: RtFrame, now: int) returns (verdict: C.RxVerdict)
      requires Shaped() && |rt.csdu| >= layout.outputCr.dataLength
      modifies this`lastRx, this`lastRxCycleCounter, this`watchdog, this`providerRun, this`primary, this`stats,
               rxCsdu, rxIopsGood, rxIocsGood
      ensures verdict == C.Accepted(ProviderRun(rt.dataStatus), Primary(rt.dataStatus), DataValid(rt.dataStatus))
      ensures Rx() == C.Take(old(Rx()), Consuming(), rt, now)
    {
      hide Sound, C.IopsBits, C.IocsBits, CounterAfter, DataValid, ProviderRun, Primary, InData, IsStatus;
      var s := stats;
      if lastRxCycleCounter.Some? {
        var d := (rt.cycleCounter - lastRxCycleCounter.value) % 0x1_0000;
        if d == 0 || d > 0x8000 { s := s.(reordered := s.reordered + 1); }
      }
      lastRx, watchdog, lastRxCycleCounter := Some(now), C.WdOk, Some(rt.cycleCounter);
      providerRun, primary := ProviderRun(rt.dataStatus), Primary(rt.dataStatus);
      if DataValid(rt.dataStatus) {
        stats := s.(accepted := s.accepted + 1);
      } else {
        stats := s.(invalid := s.invalid + 1);
      }
      assert Rx() == old(Rx()).(lastRx := lastRx, watchdog := watchdog, lastCounter := lastRxCycleCounter,
                                providerRun := providerRun, primary := primary, stats := stats);
      if DataValid(rt.dataStatus) { TakeCsdu(rt.csdu); }
      return C.Accepted(providerRun, primary, DataValid(rt.dataStatus));
    }

    method OnFrame(frame: Bytes, now: int) returns (verdict: C.RxVerdict)
      requires Valid()
      modifies this`lastRx, this`lastRxCycleCounter, this`watchdog, this`providerRun, this`primary, this`stats,
               rxCsdu, rxIopsGood, rxIocsGood
      ensures Valid()
      ensures (Rx(), verdict) == C.OnFrame(old(Rx()), Consuming(), frame, now)
    {
      hide ParseRt, Sound, C.Reordered, C.IopsBits, C.IocsBits, CounterAfter;
      var p := ParseRt(frame);
      if p.Err? {
        stats := stats.(dropped := stats.dropped + 1);
        return C.Dropped(C.Malformed);
      }
      var (eth, rt) := p.value;
      var cr := layout.outputCr;
      if eth.src != cpu || rt.frameId != cr.frameId {
        stats := stats.(ignored := stats.ignored + 1);
        return C.Ignored;
      }
      if rt.transferStatus != 0 {
        stats := stats.(dropped := stats.dropped + 1);
        return C.Dropped(C.TransferStatus(rt.transferStatus));
      }
      if |rt.csdu| < cr.dataLength {
        stats := stats.(dropped := stats.dropped + 1);
        return C.Dropped(C.ShortCsdu(|rt.csdu|, cr.dataLength));
      }
      verdict := Accept(rt, now);
    }

    method CheckWatchdog(now: int) returns (verdict: C.WatchdogVerdict)
      requires Valid()
      modifies this`watchdog, this`stats
      ensures Valid()
      ensures (Rx(), verdict) == C.CheckWatchdog(old(Rx()), Consuming(), now)
    {
      if lastRx.None? { return C.NotArmed; }
      var elapsed := Max(now - lastRx.value, 0);
      if elapsed <= layout.outputCr.watchdog {
        watchdog := C.WdOk;
        return C.WithinWindow;
      }
      if watchdog.WdExpired? { return C.Stopped; }
      watchdog := C.WdExpired;
      stats := stats.(watchdogExpirations := stats.watchdogExpirations + 1);
      return C.Expired;
    }

    method MarkOutputsStale()
      requires Valid()
      modifies rxIopsGood
      ensures Valid()
      ensures Rx() == C.MarkStale(old(Rx()))
    {
      for i := 0 to rxIopsGood.Length
        invariant forall j :: 0 <= j < i ==> !rxIopsGood[j]
      {
        rxIopsGood[i] := false;
      }
      assert rxIopsGood[..] == C.MarkStale(old(Rx())).iopsGood;
    }
  }

  // --- the assembly loop -----------------------------------------------------------

  /** Byte `i` after the first `k` objects and the first `m` IOCS bytes, on a buffer that was `zero`. */
  ghost function Written(cr: CrLayout, inputs: Bytes, zero: Bytes, k: nat, m: nat, i: nat): u8
    requires k <= |cr.objects| && m <= |cr.iocs| && i < cr.dataLength <= |inputs| && i < |zero|
  {
    if exists c <- cr.iocs[..m] :: c.iocsOff == i then IOXS_GOOD
    else if exists o <- cr.objects[..k] :: o.iopsOff == i then IOXS_GOOD
    else if exists o <- cr.objects[..k] :: o.dataOff <= i < o.dataOff + o.dataLen then inputs[i]
    else zero[i]
  }

  /** Copying object `k` overwrites no status byte of an earlier object: their ranges are apart. */
  lemma WrittenObject(cr: CrLayout, inputs: Bytes, zero: Bytes, k: nat, i: nat)
    requires Sound(cr) && k < |cr.objects| && i < cr.dataLength <= |inputs| && i < |zero|
    ensures var o := cr.objects[k];
      Written(cr, inputs, zero, k + 1, 0, i)
      == if i == o.iopsOff then IOXS_GOOD
         else if o.dataOff <= i < o.dataOff + o.dataLen then inputs[i]
         else Written(cr, inputs, zero, k, 0, i)
  {
    var o := cr.objects[k];
    assert cr.objects[..k + 1] == cr.objects[..k] + [o];
    if o.dataOff <= i < o.dataOff + o.dataLen {
      DataIsNotStatus(cr, o, i);
      assert forall p <- cr.objects[..k + 1] :: p in cr.objects;
    }
  }

  lemma WrittenAll(cr: CrLayout, inputs: Bytes, zero: Bytes, i: nat)
    requires i < cr.dataLength <= |inputs| && |zero| == cr.dataLength
    requires !InData(cr, i) && !IsStatus(cr, i) ==> zero[i] == 0
    ensures Written(cr, inputs, zero, |cr.objects|, |cr.iocs|, i) == ProducedCsdu(cr, inputs)[i]
  {
    assert cr.objects[..|cr.objects|] == cr.objects && cr.iocs[..|cr.iocs|] == cr.iocs;
  }
}
