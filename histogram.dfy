/** `HistogramState`: a bounded FIFO of latency samples whose bucket counts,
    mode, overflow bucket and plot series are rebuilt on every push. */
module Histogram {
  import opened HistogramSpec

  class HistogramState {
    /** Stored samples, oldest first; `U64_MAX` marks a probe with no reply. */
    var samples: seq<U64>
    /** Maximum number of samples kept; `None` keeps every sample. */
    var windowSize: Option<nat>
    /** Upper bounds of the buckets, scanned in order. */
    var binBuckets: seq<U64>
    var binCounts: seq<nat>
    /** (bucket bound, plotted height) pairs for the chart. */
    var plotData: seq<(nat, nat)>
    var maxCount: nat
    /** Bound of the mode bucket. */
    var maxBin: U64
    /** Bound of the overflow bucket, the right edge of the visible axis. */
    var overflowBin: U64

    /** One count per bucket, and at least one bucket. */
    ghost predicate Valid()
      reads this
    {
      0 < |binBuckets| == |binCounts|
    }

    /** Index of the mode bucket for the current counts. */
    ghost function ModeIdx(): nat
      requires Valid()
      reads this
    {
      ModeIndex(binCounts, |binBuckets| - 1)
    }

    /** Index of the overflow bucket for the current counts. */
    ghost function OverflowIdx(): nat
      requires Valid()
      reads this
    {
      OverflowIndex(ModeIdx(), |binBuckets|)
    }

    /** The derived fields are those `update` computes from the samples. */
    ghost predicate Consistent()
      reads this
    {
      Valid() &&
      binCounts == Counts(binBuckets, samples) &&
      maxCount == MaxCount(binCounts) &&
      maxBin == binBuckets[ModeIdx()] &&
      overflowBin == binBuckets[OverflowIdx()] &&
      plotData == PlotSeries(binBuckets, binCounts, OverflowIdx())
    }

    /** The default configuration: 97 buckets, a window of 500 samples. */
    constructor Default()
      ensures Valid()
      ensures samples == [] && windowSize == Some(500)
      ensures binBuckets == DefaultBuckets() && binCounts == seq(97, _ => 0)
      ensures plotData == [] && overflowBin == 950 && maxBin == 0 && maxCount == 0
    {
      var buckets := DefaultBuckets();
      samples := [];
      windowSize := Some(500);
      binCounts := seq(|buckets|, _ => 0);
      plotData := [];
      overflowBin := buckets[|buckets| - 1];
      maxBin := 0;
      maxCount := 0;
      binBuckets := buckets;
    }

    /** `_bin_index`: the first bucket whose bound is at least `x`, else the last. */
    method BinIndex(x: U64) returns (i: nat)
      requires Valid()
      ensures i == BinIndexOf(binBuckets, x)
    {
      for k := 0 to |binBuckets|
        invariant forall j :: 0 <= j < k ==> binBuckets[j] < x
      {
        if x <= binBuckets[k] {
          BinIndexUnique(binBuckets, x, k);
          return k;
        }
      }
      i := |binBuckets| - 1;
      BinIndexUnique(binBuckets, x, i);
    }

    /** Pushes the sample for `reply`, rolls the window, then recomputes
        everything derived from the samples. */
    method AddSample(reply: Option<nat>)
      requires Valid()
      modifies this
      ensures samples == Window(old(samples) + [SampleOf(reply)], windowSize)
      ensures windowSize == old(windowSize) && binBuckets == old(binBuckets)
      ensures windowSize.Some? ==> |samples| <= windowSize.value
      ensures Consistent()
      ensures Sum(binCounts) == |samples| && maxCount <= |samples|
    {
      var x := SampleOf(reply);
      samples := samples + [x];
      RollWindow();
      Update();
      assert Consistent();
      CountsSummary(binBuckets, samples);
    }

    /** Evicts the oldest samples, one at a time, until the window holds. */
    method RollWindow()
      modifies this`samples
      ensures samples == Window(old(samples), windowSize)
    {
      if windowSize.Some? {
        var window := windowSize.value;
        while |samples| > window
          invariant |samples| <= |old(samples)|
          invariant samples == old(samples)[|old(samples)| - |samples|..]
          invariant Min(window, |old(samples)|) <= |samples|
          decreases |samples|
        {
          samples := samples[1..];
        }
      }
    }

    /** `update_bins`: zero the counts, then count every sample in its bucket. */
    method UpdateBins()
      requires Valid()
      modifies this`binCounts
      ensures Valid()
      ensures binCounts == Counts(binBuckets, samples)
    {
      var n := |binCounts|;
      binCounts := seq(n, _ => 0);
      CountsOfNothing(binBuckets);
      for k := 0 to |samples|
        invariant binCounts == Counts(binBuckets, samples[..k])
      {
        var idx := BinIndex(samples[k]);
        CountsSnoc(binBuckets, samples[..k], samples[k]);
        assert samples[..k + 1] == samples[..k] + [samples[k]];
        binCounts := binCounts[idx := binCounts[idx] + 1];
      }
      assert samples[..|samples|] == samples;
    }

    /** `update`: recount, then derive the mode, the overflow bucket and the
        plot series, folding the tail sum onto the overflow bucket's height. */
    method Update()
      requires Valid()
      modifies this`binCounts, this`maxCount, this`maxBin, this`overflowBin, this`plotData
      ensures Valid()
      ensures binCounts == Counts(binBuckets, samples)
      ensures maxCount == MaxCount(binCounts)
      ensures maxBin == binBuckets[ModeIdx()]
      ensures overflowBin == binBuckets[OverflowIdx()]
      ensures plotData == PlotSeries(binBuckets, binCounts, OverflowIdx())
    {
      UpdateBins();
      Summarize();
    }

    /** The part of `update` after the recount: peak count, mode bound,
        overflow bound and the plot series, all read off `binCounts`. */
    method Summarize()
      requires Valid()
      modifies this`maxCount, this`maxBin, this`overflowBin, this`plotData
      ensures maxCount == MaxCount(binCounts)
      ensures maxBin == binBuckets[ModeIdx()]
      ensures overflowBin == binBuckets[OverflowIdx()]
      ensures plotData == PlotSeries(binBuckets, binCounts, OverflowIdx())
    {
      var buckets, counts := binBuckets, binCounts;
      var peak := MaxCount(counts);
      var modeIdx := ModeIndex(counts, |buckets| - 1);
      var overflowIdx := OverflowIndex(modeIdx, |buckets|);
      var overflow := Sum(counts[overflowIdx..]);
      var plot: seq<(nat, nat)> := seq(|buckets|, i requires 0 <= i < |buckets| => (buckets[i] as nat, counts[i]));
      if overflow > 0 {
        plot := plot[overflowIdx := (plot[overflowIdx].0, plot[overflowIdx].1 + overflow)];
      }
      assert plot == PlotSeries(buckets, counts, overflowIdx);
      maxCount, maxBin, overflowBin, plotData := peak, buckets[modeIdx], buckets[overflowIdx], plot;
    }
  }
}
