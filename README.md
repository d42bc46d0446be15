# gping latency histogram, modelled in Dafny

This project models `HistogramState`, the rolling-window latency histogram of
gping (`gping/src/histogram.rs`). The histogram keeps a bounded FIFO of
round-trip times in whole milliseconds, stored as `u64`. A probe that got no
reply is stored as the sentinel `u64::MAX`. After every push it does four
things:

- recounts every bucket from scratch, using an upper-inclusive, first-match
  scan over the bucket bounds;
- picks the mode bucket, the first bucket holding the largest count;
- picks the overflow bucket, 15 buckets past the mode and clamped to the last
  bucket;
- builds the plot series of (bucket bound, height) pairs. At the overflow
  bucket, the height is its count plus the sum of all counts from that bucket
  to the end.

Files:

- `histogram_spec.dfy` (module `HistogramSpec`) holds the pure specification:
  sample normalisation, the window, classification, counts, mode, overflow,
  plot series and default buckets, with the lemmas about them.
- `histogram.dfy` (module `Histogram`) holds the class `HistogramState`. Its
  fields mirror the Rust struct. Its methods `AddSample`, `RollWindow`,
  `UpdateBins` and `Update` change the fields step by step, as the Rust code
  does. `Summarize` is the second half of `update`, after the recount.
  `BinIndex` only reads the fields: it is the early-return scan of
  `_bin_index`. Each method is proved against the specification functions.

Behaviour of the code worth knowing:

- **Tail counted twice.** The tail sum at `gping/src/histogram.rs:122` starts
  at the overflow index itself. Line 128 adds that sum to the overflow
  bucket's height, and every bucket from the overflow index on keeps its own
  count as well. So every count from the overflow index on is counted twice:
  once in place, and once folded onto the overflow bucket. The plotted total
  is `sum(counts) + sum(counts[idx..])` (`PlotTotal`). The plot conserves
  mass only when nothing lies at or past the overflow index
  (`PlotConservesIffNoTail`). With buckets `[10, 100, 1000]`, a window of 3
  and pushes 5, 50, 5000, 15, the series is `[(10,0),(100,2),(1000,2)]`
  (`WorkedExample`).
- **Upper-inclusive comparison.** A sample goes in bucket `i` when
  `x <= bucket[i]` (line 56).
- **Window of zero.** A window of `Some(0)` is accepted, and it leaves the
  buffer empty after every push.
- **The sentinel and the last bucket.** The sentinel lands in the last bucket
  only when every earlier bound is below `u64::MAX`. The default bounds meet
  this condition (`DefaultSentinelInLast`).
- **Empty bucket list.** The code panics on `len() - 1` when the bucket list
  is empty. The model requires at least one bucket (`Valid`).

## Model

| member | source | states |
|---|---|---|
| `HistogramSpec.SampleOf` | gping/src/histogram.rs:64-75 | A missing reply, or a duration of at least `u64::MAX` ms, is stored as the sentinel. Every shorter duration is stored exactly, so a finite sample never wraps. |
| `HistogramSpec.Window` | gping/src/histogram.rs:79-84 | The kept samples are the newest `min(w, n)` of the pushed ones, in their original order. With no window, all samples are kept. |
| `HistogramSpec.WindowOfWindow` | gping/src/histogram.rs:79-84 | Trimming after each push keeps the same samples as trimming once at the end. |
| `HistogramSpec.PushesKeepNewest` | gping/src/histogram.rs:77-84 | After any non-empty run of pushes, the buffer is the newest `min(w, total)` samples ever pushed, in order (FIFO eviction). |
| `HistogramSpec.FromEmptyKeepsNewest` | gping/src/histogram.rs:77-84 | From an empty buffer, the window bound holds after every run of pushes. Without a window, the buffer is exactly the pushed sequence. |
| `HistogramSpec.EvictsOldestFirst` | gping/src/histogram.rs:79-84 | Pushing `w + 1` samples through a window of `w` drops exactly the first sample. |
| `HistogramSpec.ScanFrom` | gping/src/histogram.rs:54-62 | The scan from position `from` returns the first bucket at or after `from` whose bound is at least `x`, or the last bucket. It never returns an index past the end. |
| `HistogramSpec.BinIndexOf` | gping/src/histogram.rs:54-62 | The result is a valid index `i`. Every bound before `i` is below `x`, and either `x <= bucket[i]` or `i` is the last bucket. |
| `HistogramSpec.BinIndexUnique` | gping/src/histogram.rs:54-62 | The first-match rule singles out exactly one index (both directions), so classification is deterministic. |
| `HistogramSpec.BinIndexMonotone` | gping/src/histogram.rs:54-62 | For any bounds, a larger sample never lands in an earlier bucket. |
| `HistogramSpec.AboveAllBoundsInLastBucket` | gping/src/histogram.rs:54-62 | A sample above every bound before the last one lands in the last bucket. |
| `HistogramSpec.CountsSnoc` | gping/src/histogram.rs:98-101 | Counting one more sample adds one to its own bucket and changes no other count. |
| `HistogramSpec.CountsConserve` | gping/src/histogram.rs:90-102 | The counts add up to the number of samples in the window. |
| `HistogramSpec.CountAtMostSamples` | gping/src/histogram.rs:98-101 | No bucket count exceeds the number of samples. |
| `HistogramSpec.CountsSummary` | gping/src/histogram.rs:90-107 | The counts add up to the sample count. The peak count is at most the sample count, and at least one once there is a sample. |
| `HistogramSpec.MaxCount` | gping/src/histogram.rs:107 | The result bounds every count. With no counts, it is 0. |
| `HistogramSpec.MaxCountAttained` | gping/src/histogram.rs:107 | When there is at least one count, the peak is itself one of the counts, so the lookup of the mode always succeeds. |
| `HistogramSpec.Position` | gping/src/histogram.rs:109 | The result is the first index holding the value, or none exactly when no element holds it. |
| `HistogramSpec.ModeIndex` | gping/src/histogram.rs:109-116 | The mode is a valid index whose count equals the peak count. Every earlier count is strictly smaller, so ties go to the lowest index. With no counts, the fallback is returned. |
| `HistogramSpec.ModeOfZeros` | gping/src/histogram.rs:107-109 | When every count is zero, the peak count is 0 and the mode is bucket 0. |
| `HistogramSpec.OverflowIndex` | gping/src/histogram.rs:111-114 | The overflow index equals `min(mode + 15, n - 1)`. It is a valid index and never before the mode. |
| `HistogramSpec.PlotSeries` | gping/src/histogram.rs:122-131 | There is one point per bucket, with `x` the bound and `y` the count. The exception is the overflow index, where `y` is the count plus the sum of counts from that index on. |
| `HistogramSpec.PlotTotal` | gping/src/histogram.rs:122-131 | The plotted heights add up to the total count plus the tail sum from the overflow index, so every count from the overflow index on is counted twice: once in place, once folded onto the overflow bucket. |
| `HistogramSpec.PlotConservesIffNoTail` | gping/src/histogram.rs:122-129 | The plotted heights equal the total count exactly when every count from the overflow index on is zero. |
| `HistogramSpec.StepRange` | gping/src/histogram.rs:35-37 | `(lo..hi).step_by(step)` gives `lo + k*step` for `k` up to the least count reaching `hi`, and every element is below `hi`. |
| `HistogramSpec.ConcatenatedRanges` | gping/src/histogram.rs:34-38 | The three ranges chained together give 97 bounds. Bound `i` is `1 + i` in the first range, `50 + 5(i - 49)` in the second and `250 + 100(i - 89)` in the third, and none exceeds 950. |
| `HistogramSpec.DefaultBuckets` | gping/src/histogram.rs:34-38 | There are 97 bounds: 1 to 49 in steps of 1, 50 to 245 in steps of 5, and 250 to 950 in steps of 100. |
| `HistogramSpec.DefaultBucketsAscending` | gping/src/histogram.rs:34-38 | Every default bound is strictly larger than the one before it. |
| `HistogramSpec.DefaultSentinelInLast` | gping/src/histogram.rs:34-38 | With the default bounds, the no-reply sentinel is classified into the last bucket. |
| `HistogramSpec.DefaultBucketsShape` | gping/src/histogram.rs:34-45 | The default bounds are strictly ascending, run from 1 to 950, and send the no-reply sentinel to the last bucket. |
| `HistogramSpec.WorkedExample` | gping/src/histogram.rs:77-131 | Buckets `[10,100,1000]`, window 3, pushes 5, 50, 5000, 15: the window is `[50,5000,15]`, counts `[0,2,1]`, mode 1, overflow 2, and plot `[(10,0),(100,2),(1000,2)]`, one more than the count total. |
| `Histogram.HistogramState.Default` | gping/src/histogram.rs:31-50 | The new state has the default buckets, zero counts of the same length, window `Some(500)`, no samples, an empty plot, `overflow_bin` 950, and `max_bin = max_count = 0`. |
| `Histogram.HistogramState.BinIndex` | gping/src/histogram.rs:54-62 | The early-return scan returns exactly the first-match bucket index. |
| `Histogram.HistogramState.RollWindow` | gping/src/histogram.rs:79-84 | Removing the front sample while the buffer is over the window leaves exactly the windowed suffix. |
| `Histogram.HistogramState.AddSample` | gping/src/histogram.rs:64-87 | The new samples are the window of the old samples plus the normalised reply, and the window bound holds. The buckets and window are unchanged. Every derived field is recomputed, and the counts add up to the sample count. |
| `Histogram.HistogramState.UpdateBins` | gping/src/histogram.rs:90-102 | The counts are rebuilt from zero. Each count is the number of samples classified into that bucket, and the length is unchanged. |
| `Histogram.HistogramState.Summarize` | gping/src/histogram.rs:107-131 | From the current counts: the peak count, the bound of the first bucket holding it, the bound of the overflow bucket, and the plot series with the tail folded onto the overflow bucket. |
| `Histogram.HistogramState.Update` | gping/src/histogram.rs:104-132 | The whole new state: recomputed counts, peak count, mode bound, overflow bound, and the plot series with the tail folded onto the overflow bucket. The samples and buckets are untouched. |

## Left out

- `dataset` and `render_histogram` (chart widget construction, axis bounds, styling and the status text) are terminal UI with no stateable logic.
- Plot coordinates are `f64` in the code. Here they are pairs of naturals, because the casts are exact for realistic bounds and counts.
- `Duration` is taken as an optional whole number of milliseconds. The truncation done by `as_millis` belongs to the standard library.
- An empty bucket list makes the code panic on `len() - 1`. The model excludes it by requiring at least one bucket.
- `bin_counts` are unbounded naturals rather than `u64`. Each count is at most the number of samples (`CountAtMostSamples`), so the code's `+= 1` cannot overflow for any window that fits in memory.
- There is no locking or concurrent access in this code, so none is modelled.
- A fixed-range variant of the histogram is not part of this model. It is not in the modelled source file.
- The public fields `window_size` and `bin_buckets` could be reassigned by a caller between pushes. The model covers only the operations of `HistogramState` itself.
