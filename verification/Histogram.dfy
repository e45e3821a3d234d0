/** The latency histogram (crates/pnio/src/rt/hist.rs): one-microsecond bins against the order
    statistics of the samples. */
module Histograms {
  import opened Wire

  const HIST_BINS := 2048

  /** The bin of a sample in nanoseconds; the last one takes everything longer. */
  function BinOf(ns: nat): (b: nat)
    ensures b < HIST_BINS
  {
    Min(ns / 1000, HIST_BINS - 1)
  }

  function InBin(samples: seq<nat>, b: nat): nat {
    if samples == [] then 0
    else InBin(samples[..|samples| - 1], b) + (if BinOf(samples[|samples| - 1]) == b then 1 else 0)
  }

  /** Samples in the first `n` bins. */
  function Below(samples: seq<nat>, n: nat): nat {
    if samples == [] then 0
    else Below(samples[..|samples| - 1], n) + (if BinOf(samples[|samples| - 1]) < n then 1 else 0)
  }

  function Largest(samples: seq<nat>): nat {
    if samples == [] then 0 else Max(Largest(samples[..|samples| - 1]), samples[|samples| - 1])
  }

  predicate Sorted(s: seq<nat>) { forall i, j :: 0 <= i < j < |s| ==> s[i] <= s[j] }

  lemma {:induction false} BelowStep(samples: seq<nat>, n: nat)
    ensures Below(samples, n + 1) == Below(samples, n) + InBin(samples, n)
    decreases |samples|
  {
    if samples != [] { BelowStep(samples[..|samples| - 1], n); }
  }

  lemma {:induction false} BelowEnds(samples: seq<nat>)
    ensures Below(samples, 0) == 0 && Below(samples, HIST_BINS) == |samples|
    decreases |samples|
  {
    if samples != [] { BelowEnds(samples[..|samples| - 1]); }
  }

  /** All bins together hold every sample. */
  lemma {:induction false} BinsSum(samples: seq<nat>, n: nat)
    ensures BinSum(samples, n) == Below(samples, n)
    ensures n == HIST_BINS ==> BinSum(samples, n) == |samples|
    decreases n
  {
    BelowEnds(samples);
    if n > 0 {
      BinsSum(samples, n - 1);
      BelowStep(samples, n - 1);
    }
  }

  function BinSum(samples: seq<nat>, n: nat): nat {
    if n == 0 then 0 else BinSum(samples, n - 1) + InBin(samples, n - 1)
  }

  // --- order statistics ----------------------------------------------------------

  lemma {:induction false} BelowConcat(a: seq<nat>, b: seq<nat>, n: nat)
    ensures Below(a + b, n) == Below(a, n) + Below(b, n)
    decreases |b|
  {
    if b == [] {
      assert a + b == a;
    } else {
      var init := b[..|b| - 1];
      assert (a + b)[..|a + b| - 1] == a + init;
      BelowConcat(a, init, n);
    }
  }

  /** Taking one occurrence out of both leaves the rest the same. */
  lemma DropBoth(init: seq<nat>, left: seq<nat>, x: nat, right: seq<nat>)
    requires multiset(init + [x]) == multiset(left + [x] + right)
    ensures multiset(init) == multiset(left + right)
  {
    assert multiset(init) == multiset(init + [x]) - multiset{x};
    assert multiset(left + right) == multiset(left + [x] + right) - multiset{x};
  }

  /** Counting does not depend on the order of the samples. */
  lemma {:induction false} BelowPermutes(a: seq<nat>, b: seq<nat>, n: nat)
    requires multiset(a) == multiset(b)
    ensures Below(a, n) == Below(b, n)
    decreases |a|
  {
    hide Below;
    if a == [] {
      assert |multiset(b)| == |b|;
    } else {
      var init, x := a[..|a| - 1], a[|a| - 1];
      assert a == init + [x];
      assert x in multiset(a) && x in multiset(b);
      var k :| 0 <= k < |b| && b[k] == x;
      var left, right := b[..k], b[k + 1..];
      assert b == left + [x] + right;
      DropBoth(init, left, x, right);
      BelowPermutes(init, left + right, n);
      BelowConcat(left, right, n);
      BelowConcat(left + [x], right, n);
      BelowConcat(left, [x], n);
      BelowConcat(init, [x], n);
    }
  }

  lemma BinMonotone(x: nat, y: nat)
    requires x <= y
    ensures BinOf(x) <= BinOf(y)
  {
  }

  /** In sorted samples the first `Below(s, n)` are the ones in the first `n` bins. */
  lemma {:induction false} SortedBelow(s: seq<nat>, n: nat, k: nat)
    requires Sorted(s) && k < |s|
    ensures k < Below(s, n) <==> BinOf(s[k]) < n
    decreases |s|
  {
    var last := |s| - 1;
    var init := s[..last];
    BelowBound(init, n);
    if k < last {
      SortedBelow(init, n, k);
      BinMonotone(s[k], s[last]);
      if BinOf(s[last]) < n { AllBelow(init, s[last], n); }
    } else if BinOf(s[last]) < n {
      AllBelow(init, s[last], n);
    }
  }

  lemma {:induction false} BelowBound(s: seq<nat>, n: nat)
    ensures Below(s, n) <= |s|
  {
    if s != [] { BelowBound(s[..|s| - 1], n); }
  }

  lemma {:induction false} AllBelow(s: seq<nat>, x: nat, n: nat)
    requires BinOf(x) < n && forall i :: 0 <= i < |s| ==> s[i] <= x
    ensures Below(s, n) == |s|
    decreases |s|
  {
    if s != [] {
      BinMonotone(s[|s| - 1], x);
      AllBelow(s[..|s| - 1], x, n);
    }
  }

  function Insert(x: nat, s: seq<nat>): seq<nat> {
    if s == [] || x <= s[0] then [x] + s else [s[0]] + Insert(x, s[1..])
  }

  lemma {:induction false} InsertPermutes(x: nat, s: seq<nat>)
    ensures multiset(Insert(x, s)) == multiset(s) + multiset{x}
  {
    if s != [] && x > s[0] {
      InsertPermutes(x, s[1..]);
      assert s == [s[0]] + s[1..];
    }
  }

  lemma {:induction false} InsertSorts(x: nat, s: seq<nat>)
    requires Sorted(s)
    ensures Sorted(Insert(x, s))
  {
    if s != [] && x > s[0] {
      var rest := Insert(x, s[1..]);
      InsertSorts(x, s[1..]);
      InsertPermutes(x, s[1..]);
      forall k | 0 <= k < |rest| ensures s[0] <= rest[k] {
        assert rest[k] in multiset(rest);
        assert rest[k] == x || rest[k] in s[1..];
      }
    }
  }

  /** The samples in ascending order. */
  function Sort(samples: seq<nat>): (s: seq<nat>)
    ensures Sorted(s) && multiset(s) == multiset(samples) && |s| == |samples|
  {
    if samples == [] then []
    else
      var init, x := samples[..|samples| - 1], samples[|samples| - 1];
      assert samples == init + [x];
      InsertSorts(x, Sort(init));
      InsertPermutes(x, Sort(init));
      assert |multiset(samples)| == |samples| && |multiset(Insert(x, Sort(init)))| == |Insert(x, Sort(init))|;
      Insert(x, Sort(init))
  }

  /** The bin of the `rank`-th smallest sample, counted from 1. */
  function RankBin(samples: seq<nat>, rank: nat): nat
    requires 1 <= rank <= |samples|
  {
    BinOf(Sort(samples)[rank - 1])
  }

  /** The first bin at which the running count reaches the rank. */
  lemma CrossingIsRank(samples: seq<nat>, rank: nat, bin: nat)
    requires 1 <= rank <= |samples| && Below(samples, bin) < rank <= Below(samples, bin + 1)
    ensures bin == RankBin(samples, rank)
  {
    hide Sort;
    var s := Sort(samples);
    BelowPermutes(s, samples, bin);
    BelowPermutes(s, samples, bin + 1);
    SortedBelow(s, bin, rank - 1);
    SortedBelow(s, bin + 1, rank - 1);
  }

  /** A larger percentile lies in the same or a later bin. */
  lemma PercentilesMonotone(samples: seq<nat>, p: real, q: real)
    requires samples != [] && p <= q
    ensures 1 <= RankFor(p, |samples|) <= |samples| && 1 <= RankFor(q, |samples|) <= |samples|
    ensures RankBin(samples, RankFor(p, |samples|)) <= RankBin(samples, RankFor(q, |samples|))
  {
    hide Sort, RankFor;
    RankInRange(p, |samples|);
    RankInRange(q, |samples|);
    RankGrows(p, q, |samples|);
    var s := Sort(samples);
    BinMonotone(s[RankFor(p, |samples|) - 1], s[RankFor(q, |samples|) - 1]);
  }

  /** The bin reported is the sample of that rank in whole microseconds; only the last bin stands for anything longer. */
  lemma RankBinBounds(samples: seq<nat>, rank: nat)
    requires 1 <= rank <= |samples|
    ensures var ns, bin := Sort(samples)[rank - 1], RankBin(samples, rank);
      && bin <= 2047 && bin * 1000 <= ns
      && (bin < 2047 ==> ns < (bin + 1) * 1000)
  {
    hide Sort;
  }

  // --- percentiles -----------------------------------------------------------------

  function Ceil(x: real): int { -((-x).Floor) }

  function Clamp(p: real): real { if p < 0.0 then 0.0 else if p > 100.0 then 100.0 else p }

  function Share(p: real, count: nat): real { Clamp(p) / 100.0 * (count as real) }

  /** The 1-based rank asked for; 0 percent asks for the first sample. */
  function RankFor(p: real, count: nat): int { Max(Ceil(Share(p, count)), 1) }

  lemma ScaleMonotone(f: real, g: real, c: real)
    requires f <= g && c >= 0.0
    ensures f * c <= g * c
  {
    assert (g - f) * c >= 0.0;
  }

  lemma ShareMonotone(p: real, q: real, count: nat)
    requires p <= q
    ensures Share(p, count) <= Share(q, count) <= count as real
  {
    ScaleMonotone(Clamp(p) / 100.0, Clamp(q) / 100.0, count as real);
    ScaleMonotone(Clamp(q) / 100.0, 1.0, count as real);
  }

  lemma CeilMonotone(x: real, y: real)
    requires x <= y
    ensures Ceil(x) <= Ceil(y)
  {
  }

  lemma CeilOfInt(n: int)
    ensures Ceil(n as real) == n
  {
  }

  lemma RankInRange(p: real, count: nat)
    requires count > 0
    ensures 1 <= RankFor(p, count) <= count
  {
    hide Ceil, Share;
    ShareMonotone(p, p, count);
    CeilMonotone(Share(p, count), count as real);
    CeilOfInt(count);
  }

  lemma RankGrows(p: real, q: real, count: nat)
    requires p <= q
    ensures RankFor(p, count) <= RankFor(q, count)
  {
    hide Ceil, Share;
    ShareMonotone(p, q, count);
    CeilMonotone(Share(p, count), Share(q, count));
  }

  /** The rank asked for is the first that reaches the percentage of all samples, and at least the first sample. */
  lemma RankExact(p: real, count: nat)
    ensures var r, q := RankFor(p, count), if p < 0.0 then 0.0 else if p > 100.0 then 100.0 else p;
      && r >= 1 && r as real >= q / 100.0 * (count as real)
      && (r > 1 ==> (r - 1) as real < q / 100.0 * (count as real))
  {
  }

  // --- the histogram -----------------------------------------------------------------

  class Histogram {
    const bins: array<nat>
    var count: nat
    var maxNs: nat
    ghost var samples: seq<nat>

    ghost predicate Valid()
      reads this, bins
    {
      && bins.Length == HIST_BINS
      && (forall b :: 0 <= b < HIST_BINS ==> bins[b] == InBin(samples, b))
      && count == |samples| && maxNs == Largest(samples)
    }

    constructor ()
      ensures Valid() && fresh(bins) && samples == []
    {
      bins := new nat[HIST_BINS](_ => 0);
      count := 0;
      maxNs := 0;
      samples := [];
    }

    method Record(ns: nat)
      requires Valid()
      modifies this, bins
      ensures Valid() && samples == old(samples) + [ns]
    {
      var bin := BinOf(ns);
      bins[bin] := bins[bin] + 1;
      count := count + 1;
      maxNs := Max(maxNs, ns);
      samples := samples + [ns];
      assert samples[..|samples| - 1] == old(samples);
    }

    /** The bin of the `rank`-th smallest sample. The source's answer for counts that raced past is the
        last bin too. */
    method AtRank(rank: nat) returns (bin: nat)
      requires Valid() && 1 <= rank <= count
      ensures bin == RankBin(samples, rank)
    {
      var seen := 0;
      BelowEnds(samples);
      for i := 0 to HIST_BINS - 1
        invariant seen == Below(samples, i) && seen < rank
      {
        seen := seen + bins[i];
        BelowStep(samples, i);
        if seen >= rank {
          CrossingIsRank(samples, rank, i);
          return i;
        }
      }
      CrossingIsRank(samples, rank, HIST_BINS - 1);
      return HIST_BINS - 1;
    }

    method Percentile(p: real) returns (bin: Option<nat>)
      requires Valid()
      ensures bin.None? <==> samples == []
      ensures bin.Some? ==> 1 <= RankFor(p, |samples|) <= |samples| && bin.value == RankBin(samples, RankFor(p, |samples|))
    {
      if count == 0 { return None; }
      RankInRange(p, count);
      var b := AtRank(RankFor(p, count));
      return Some(b);
    }
  }
}
