/**
 * The metric bookkeeping of one slot's epoch: the training pass with its
 * running totals and its logging window (ensenble_train.py lines 234-273),
 * and the validation pass with its per-batch item lists (lines 287-317).
 * The network, loss and optimiser are abstracted into the per-batch values
 * they produce; macro-F1 is an opaque function of the two label lists.
 */
module Metrics {
  import opened Events

  type Pos = n: nat | n > 0 witness 1

  /** One batch as the loops see it: `loss.item()`, `labels.tolist()` and `preds.tolist()`. */
  datatype Batch = Batch(loss: real, labels: seq<int>, preds: seq<int>)

  /** One pass over a loader. An empty loader would divide by zero at lines 271 and 315. */
  type Batches = bs: seq<Batch> | |bs| > 0 witness [Batch(0.0, [], [])]

  /** `grid_image(..., n=16)` asserts that the first validation batch holds at least 16 images. */
  const FigureSize := 16

  /** `(preds == labels).sum()`: the positions where prediction and label agree. */
  function MatchCount(labels: seq<int>, preds: seq<int>): (r: nat)
    ensures r <= |labels| && r <= |preds|
    ensures labels == preds ==> r == |labels|
  {
    if labels == [] || preds == [] then 0
    else (if labels[0] == preds[0] then 1 else 0) + MatchCount(labels[1..], preds[1..])
  }

  function Correct(b: Batch): nat {
    MatchCount(b.labels, b.preds)
  }

  /** The `drop_last=True` guarantee: every batch holds exactly `size` labels and predictions. */
  predicate DropLast(bs: seq<Batch>, size: nat) {
    forall k :: 0 <= k < |bs| ==> |bs[k].labels| == size && |bs[k].preds| == size
  }

  /** The sum of the losses of batches `lo` to `hi - 1`. */
  function LossSum(bs: seq<Batch>, lo: nat, hi: nat): real
    requires lo <= hi <= |bs|
    decreases hi
  {
    if hi == lo then 0.0 else LossSum(bs, lo, hi - 1) + bs[hi - 1].loss
  }

  /** The number of correct predictions in batches `lo` to `hi - 1`. */
  function CorrectSum(bs: seq<Batch>, lo: nat, hi: nat): nat
    requires lo <= hi <= |bs|
    decreases hi
  {
    if hi == lo then 0 else CorrectSum(bs, lo, hi - 1) + Correct(bs[hi - 1])
  }

  /** `y_true` after `y_true.extend(labels.tolist())` for the first `k` batches. */
  function AllLabels(bs: seq<Batch>, k: nat): seq<int>
    requires k <= |bs|
  {
    if k == 0 then [] else AllLabels(bs, k - 1) + bs[k - 1].labels
  }

  /** `y_pred` after `y_pred.extend(preds.tolist())` for the first `k` batches. */
  function AllPreds(bs: seq<Batch>, k: nat): seq<int>
    requires k <= |bs|
  {
    if k == 0 then [] else AllPreds(bs, k - 1) + bs[k - 1].preds
  }

  /** `loss_value / len(loader)` (line 271) and `np.sum(val_loss_items) / len(loader)` (line 315). */
  function MeanLoss(bs: Batches): real {
    LossSum(bs, 0, |bs|) / |bs| as real
  }

  /** `matches / (batch_size * len(loader))` (line 272) and its validation twin (line 316). */
  function Accuracy(bs: Batches, size: Pos): real {
    CorrectSum(bs, 0, |bs|) as real / (size * |bs|) as real
  }

  /** `np.sum` of a list of floats. */
  function Sum(xs: seq<real>): real {
    if xs == [] then 0.0 else Sum(xs[..|xs| - 1]) + xs[|xs| - 1]
  }

  /** `np.sum` of a list of integers. */
  function IntSum(xs: seq<int>): int {
    if xs == [] then 0 else IntSum(xs[..|xs| - 1]) + xs[|xs| - 1]
  }

  // ---------------------------------------------------------------------
  // Arithmetic on window boundaries
  // ---------------------------------------------------------------------

  lemma MulLess(a: int, b: int, L: int)
    requires L > 0 && a < b
    ensures a * L + L <= b * L
  {
    var d := b - a - 1;
    assert d * L >= 0;
    assert b * L == (a + 1 + d) * L == a * L + L + d * L;
  }

  lemma DivModUnique(x: int, L: int, q: int, r: int)
    requires L > 0 && 0 <= r < L && x == q * L + r
    ensures x / L == q && x % L == r
  {
    var q', r' := x / L, x % L;
    assert x == q' * L + r';
    if q' < q {
      MulLess(q', q, L);
    } else if q < q' {
      MulLess(q, q', L);
    }
  }

  lemma ProductPositive(a: Pos, b: Pos)
    ensures a * b > 0
  {
  }

  lemma RatioInUnitInterval(a: int, b: int)
    requires 0 <= a <= b && 0 < b
    ensures 0.0 <= a as real / b as real <= 1.0
  {
    var x, y := a as real, b as real;
    assert x / y * y == x;
  }

  /** `m * L` by repeated addition: window boundaries in a form that keeps the proofs linear. */
  function Times(m: nat, L: nat): nat {
    if m == 0 then 0 else Times(m - 1, L) + L
  }

  lemma {:induction false} TimesIsProduct(m: nat, L: nat)
    ensures Times(m, L) == m * L
  {
    if m > 0 {
      TimesIsProduct(m - 1, L);
      assert m * L == (m - 1) * L + L;
    }
  }

  lemma {:induction false} TimesIncreases(j: nat, k: nat, L: nat)
    requires j < k
    ensures Times(j, L) + L <= Times(k, L)
  {
    if j + 1 < k {
      TimesIncreases(j, k - 1, L);
    }
  }

  /** `x` is a multiple of `L`, decided by repeated subtraction. */
  predicate MultipleOf(x: nat, L: Pos)
    decreases x
  {
    if x < L then x == 0 else MultipleOf(x - L, L)
  }

  /** The subtraction test agrees with the remainder test `x % L == 0`. */
  lemma {:induction false} MultipleOfIsMod(x: nat, L: Pos)
    ensures MultipleOf(x, L) <==> x % L == 0
    decreases x
  {
    if x < L {
      DivModUnique(x, L, 0, x);
    } else {
      MultipleOfIsMod(x - L, L);
      var q, r := (x - L) / L, (x - L) % L;
      assert x - L == q * L + r;
      assert x == (q + 1) * L + r;
      DivModUnique(x, L, q + 1, r);
    }
  }

  lemma {:induction false} MultipleOfTimes(m: nat, L: Pos)
    ensures MultipleOf(Times(m, L), L)
  {
    if m > 0 {
      MultipleOfTimes(m - 1, L);
    }
  }

  /** No batch count strictly inside window `m` is a multiple of `L`. */
  lemma {:induction false} NotMultipleInside(m: nat, L: Pos, x: nat)
    requires Times(m, L) < x < Times(m, L) + L
    ensures !MultipleOf(x, L)
  {
    if m > 0 {
      NotMultipleInside(m - 1, L, x - L);
    }
  }

  /** Item `x` lies in window `x / L`, which starts at `Times(x / L, L)`. */
  lemma WindowOf(x: nat, L: Pos)
    ensures Times(x / L, L) <= x < Times(x / L, L) + L
  {
    TimesIsProduct(x / L, L);
    DivModUnique(x, L, x / L, x % L);
  }

  // ---------------------------------------------------------------------
  // The logging window (lines 261-269)
  // ---------------------------------------------------------------------

  /**
   * The two `add_scalar` calls of a flush at `step` (lines 264-265): the
   * window's mean loss and its accuracy, `temp_matches / batch_size / log_interval`.
   */
  function Flush(step: int, lossSum: real, correctSum: int, batchSize: Pos, L: Pos): seq<Event> {
    [Scalar(TrainLossTag, lossSum / L as real, step),
     Scalar(TrainAccuracyTag, correctSum as real / batchSize as real / L as real, step)]
  }

  /**
   * The flush of the `j`-th window, batches `Times(j, L)` to `Times(j, L) + L - 1`,
   * logged at the step `offset + Times(j, L) + L - 1` of the batch that closes it;
   * `offset` is the pass's `epoch * len(loader)`. A window that the pass does
   * not complete is never flushed.
   */
  function FlushEntries(offset: int, bs: seq<Batch>, batchSize: Pos, L: Pos, j: nat): seq<Event> {
    var lo := Times(j, L);
    if lo + L <= |bs| then Flush(offset + lo + L - 1, LossSum(bs, lo, lo + L), CorrectSum(bs, lo, lo + L), batchSize, L)
    else []
  }

  /** The log of the first `m` flushes. */
  function FlushLog(offset: int, bs: seq<Batch>, batchSize: Pos, L: Pos, m: nat): seq<Event> {
    if m == 0 then []
    else FlushLog(offset, bs, batchSize, L, m - 1) + FlushEntries(offset, bs, batchSize, L, m - 1)
  }

  /** Everything the training pass of epoch `epoch` logs: one flush per full window. */
  function TrainLog(epoch: nat, bs: seq<Batch>, batchSize: Pos, L: Pos): seq<Event> {
    FlushLog(epoch * |bs|, bs, batchSize, L, |bs| / L)
  }

  /** `m` complete windows log two entries each. */
  lemma {:induction false} FlushLogLength(offset: int, bs: seq<Batch>, batchSize: Pos, L: Pos, m: nat)
    requires Times(m, L) <= |bs|
    ensures |FlushLog(offset, bs, batchSize, L, m)| == 2 * m
  {
    if m > 0 {
      FlushLogLength(offset, bs, batchSize, L, m - 1);
    }
  }

  /**
   * Entries `2 * j` and `2 * j + 1` of the log of `m` complete windows are
   * window `j`'s mean loss and accuracy, both at the step of the batch that
   * closes window `j`.
   */
  lemma {:induction false} FlushLogEntry(offset: int, bs: seq<Batch>, batchSize: Pos, L: Pos, m: nat, j: nat)
    requires j < m && Times(m, L) <= |bs|
    ensures Times(j, L) + L <= |bs|
    ensures |FlushLog(offset, bs, batchSize, L, m)| == 2 * m
    ensures FlushLog(offset, bs, batchSize, L, m)[2 * j] ==
              Scalar(TrainLossTag, LossSum(bs, Times(j, L), Times(j, L) + L) / L as real, offset + Times(j, L) + L - 1)
    ensures FlushLog(offset, bs, batchSize, L, m)[2 * j + 1] ==
              Scalar(TrainAccuracyTag, CorrectSum(bs, Times(j, L), Times(j, L) + L) as real / batchSize as real / L as real,
                     offset + Times(j, L) + L - 1)
  {
    FlushLogLength(offset, bs, batchSize, L, m);
    FlushLogLength(offset, bs, batchSize, L, m - 1);
    var prev := FlushLog(offset, bs, batchSize, L, m - 1);
    var log := FlushLog(offset, bs, batchSize, L, m);
    if j < m - 1 {
      FlushLogEntry(offset, bs, batchSize, L, m - 1, j);
      assert log[2 * j] == prev[2 * j] && log[2 * j + 1] == prev[2 * j + 1];
    }
  }

  /**
   * The steps of a pass's complete windows increase strictly and stay inside
   * the pass's own range `[offset, offset + n)` (with `offset = epoch * n`,
   * `EpochsLogApart` carries this across epochs).
   */
  lemma FlushStepsIncrease(offset: int, n: nat, L: Pos, j: nat, k: nat)
    requires j < k && Times(k + 1, L) <= n
    ensures offset <= offset + Times(j, L) + L - 1 < offset + Times(k, L) + L - 1 < offset + n
  {
    TimesIncreases(j, k, L);
  }

  /** The training pass logs two entries per full window: `floor(numBatches / log_interval)` flushes. */
  lemma TrainLogLength(epoch: nat, bs: seq<Batch>, batchSize: Pos, L: Pos)
    ensures |TrainLog(epoch, bs, batchSize, L)| == 2 * (|bs| / L)
  {
    WindowOf(|bs|, L);
    FlushLogLength(epoch * |bs|, bs, batchSize, L, |bs| / L);
  }

  /**
   * Within an epoch the flushes log at strictly increasing steps, all in
   * `[epoch * len, epoch * len + len)`, and window `j`'s two scalars share a step.
   */
  lemma TrainLogStepsIncrease(epoch: nat, bs: seq<Batch>, batchSize: Pos, L: Pos, j: nat, k: nat)
    requires j < k < |bs| / L
    ensures |TrainLog(epoch, bs, batchSize, L)| == 2 * (|bs| / L)
    ensures TrainLog(epoch, bs, batchSize, L)[2 * j].Scalar? && TrainLog(epoch, bs, batchSize, L)[2 * j + 1].Scalar?
    ensures TrainLog(epoch, bs, batchSize, L)[2 * k].Scalar?
    ensures TrainLog(epoch, bs, batchSize, L)[2 * j].step == TrainLog(epoch, bs, batchSize, L)[2 * j + 1].step
    ensures epoch * |bs| <= TrainLog(epoch, bs, batchSize, L)[2 * j].step
    ensures TrainLog(epoch, bs, batchSize, L)[2 * j].step < TrainLog(epoch, bs, batchSize, L)[2 * k].step
    ensures TrainLog(epoch, bs, batchSize, L)[2 * k].step < epoch * |bs| + |bs|
  {
    var m := |bs| / L;
    WindowOf(|bs|, L);
    FlushLogEntry(epoch * |bs|, bs, batchSize, L, m, j);
    FlushLogEntry(epoch * |bs|, bs, batchSize, L, m, k);
    TimesIncreases(k, m, L);
    FlushStepsIncrease(epoch * |bs|, |bs|, L, j, k);
  }

  /** Window `j`'s two scalars are logged at one step in `[epoch * len, epoch * len + len)`. */
  lemma TrainLogStepRange(epoch: nat, bs: seq<Batch>, batchSize: Pos, L: Pos, j: nat)
    requires j < |bs| / L
    ensures |TrainLog(epoch, bs, batchSize, L)| == 2 * (|bs| / L)
    ensures TrainLog(epoch, bs, batchSize, L)[2 * j].Scalar? && TrainLog(epoch, bs, batchSize, L)[2 * j + 1].Scalar?
    ensures TrainLog(epoch, bs, batchSize, L)[2 * j].step == TrainLog(epoch, bs, batchSize, L)[2 * j + 1].step
    ensures epoch * |bs| <= TrainLog(epoch, bs, batchSize, L)[2 * j].step < epoch * |bs| + |bs|
  {
    WindowOf(|bs|, L);
    FlushLogEntry(epoch * |bs|, bs, batchSize, L, |bs| / L, j);
  }

  /**
   * When a slot's loader yields the same number of batches in two epochs
   * (step `epoch * len(train_loaders[i]) + idx` at lines 264-265), every
   * flush of the earlier epoch is logged at a smaller step than every flush
   * of the later one, so the two never share a step.
   */
  lemma EpochsLogApart(e1: nat, bs1: seq<Batch>, e2: nat, bs2: seq<Batch>, batchSize: Pos, L: Pos, j: nat, k: nat)
    requires e1 < e2 && |bs1| == |bs2|
    requires j < |bs1| / L && k < |bs2| / L
    ensures |TrainLog(e1, bs1, batchSize, L)| == 2 * (|bs1| / L) && |TrainLog(e2, bs2, batchSize, L)| == 2 * (|bs2| / L)
    ensures TrainLog(e1, bs1, batchSize, L)[2 * j].Scalar? && TrainLog(e2, bs2, batchSize, L)[2 * k].Scalar?
    ensures TrainLog(e1, bs1, batchSize, L)[2 * j].step < TrainLog(e2, bs2, batchSize, L)[2 * k].step
  {
    var n := |bs1|;
    TrainLogStepRange(e1, bs1, batchSize, L, j);
    TrainLogStepRange(e2, bs2, batchSize, L, k);
    assert e1 * n + n == (e1 + 1) * n;
    MulMonotone(e1 + 1, e2, n);
  }

  lemma MulMonotone(a: nat, b: nat, n: nat)
    requires a <= b
    ensures a * n <= b * n
  {
  }

  /** Every entry a flush log holds is a training-loss or training-accuracy scalar. */
  lemma {:induction false} FlushLogIsScalars(offset: int, bs: seq<Batch>, batchSize: Pos, L: Pos, m: nat)
    ensures forall k :: 0 <= k < |FlushLog(offset, bs, batchSize, L, m)| ==>
              FlushLog(offset, bs, batchSize, L, m)[k].Scalar? &&
              (FlushLog(offset, bs, batchSize, L, m)[k].tag == TrainLossTag ||
               FlushLog(offset, bs, batchSize, L, m)[k].tag == TrainAccuracyTag)
  {
    if m > 0 {
      FlushLogIsScalars(offset, bs, batchSize, L, m - 1);
      var prev := FlushLog(offset, bs, batchSize, L, m - 1);
      var last := FlushEntries(offset, bs, batchSize, L, m - 1);
      assert FlushLog(offset, bs, batchSize, L, m) == prev + last;
    }
  }

  /** The training pass logs nothing but its two training scalars: no checkpoint, no validation entry. */
  lemma TrainLogIsScalars(epoch: nat, bs: seq<Batch>, batchSize: Pos, L: Pos)
    ensures forall k :: 0 <= k < |TrainLog(epoch, bs, batchSize, L)| ==>
              TrainLog(epoch, bs, batchSize, L)[k].Scalar? &&
              (TrainLog(epoch, bs, batchSize, L)[k].tag == TrainLossTag ||
               TrainLog(epoch, bs, batchSize, L)[k].tag == TrainAccuracyTag)
  {
    FlushLogIsScalars(epoch * |bs|, bs, batchSize, L, |bs| / L);
  }

  /** Counts over adjacent ranges add up. */
  lemma {:induction false} CorrectSumSplit(bs: seq<Batch>, lo: nat, mid: nat, hi: nat)
    requires lo <= mid <= hi <= |bs|
    ensures CorrectSum(bs, lo, hi) == CorrectSum(bs, lo, mid) + CorrectSum(bs, mid, hi)
    decreases hi
  {
    if hi > mid {
      CorrectSumSplit(bs, lo, mid, hi - 1);
    }
  }

  /** The correct counts of the first `m` windows, as their flushes report them. */
  function FlushedCorrect(bs: seq<Batch>, L: Pos, m: nat): nat {
    if m == 0 then 0
    else
      var lo := Times(m - 1, L);
      FlushedCorrect(bs, L, m - 1) + (if lo + L <= |bs| then CorrectSum(bs, lo, lo + L) else 0)
  }

  /** The windows partition the pass: flushed windows plus the unflushed residue make up `matches`. */
  lemma {:induction false} WindowsPartitionMatches(bs: seq<Batch>, L: Pos, m: nat)
    requires Times(m, L) <= |bs|
    ensures CorrectSum(bs, 0, |bs|) == FlushedCorrect(bs, L, m) + CorrectSum(bs, Times(m, L), |bs|)
  {
    if m > 0 {
      WindowsPartitionMatches(bs, L, m - 1);
      CorrectSumSplit(bs, Times(m - 1, L), Times(m, L), |bs|);
    }
  }

  // ---------------------------------------------------------------------
  // Bounds under drop_last
  // ---------------------------------------------------------------------

  lemma {:induction false} CorrectSumBounds(bs: seq<Batch>, size: nat, k: nat)
    requires DropLast(bs, size) && k <= |bs|
    ensures CorrectSum(bs, 0, k) <= size * k
  {
    if k > 0 {
      CorrectSumBounds(bs, size, k - 1);
      assert size * k == size * (k - 1) + size;
    }
  }

  /** Accuracy, training or validation, is a fraction in [0, 1]. */
  lemma AccuracyInUnitInterval(bs: Batches, size: Pos)
    requires DropLast(bs, size)
    ensures 0.0 <= Accuracy(bs, size) <= 1.0
  {
    CorrectSumBounds(bs, size, |bs|);
    ProductPositive(size, |bs|);
    RatioInUnitInterval(CorrectSum(bs, 0, |bs|), size * |bs|);
  }

  /** `y_true` and `y_pred` have one entry per sample: `batch_size * k` each after `k` batches. */
  lemma {:induction false} LabelListsLength(bs: seq<Batch>, size: nat, k: nat)
    requires DropLast(bs, size) && k <= |bs|
    ensures |AllLabels(bs, k)| == |AllPreds(bs, k)| == size * k
  {
    if k > 0 {
      LabelListsLength(bs, size, k - 1);
      assert size * k == size * (k - 1) + size;
    }
  }

  // ---------------------------------------------------------------------
  // The training pass (lines 234-274)
  // ---------------------------------------------------------------------

  /** Batch `idx` closes a window: `(idx + 1) % log_interval == 0` (line 261), by MultipleOfIsMod. */
  predicate Closes(idx: nat, L: Pos) {
    MultipleOf(idx + 1, L)
  }

  /** The part of the training loop's state that the logging window drives (lines 238-239, 256-269). */
  datatype WindowState = WindowState(tempLossValue: real, tempMatches: int, log: seq<Event>)

  /** What batch `idx` of a pass starting at step `offset` does to the window state (lines 256-269). */
  function WindowStep(offset: int, batchSize: Pos, L: Pos, w: WindowState, idx: nat, b: Batch): WindowState {
    var tempLossValue, tempMatches := w.tempLossValue + b.loss, w.tempMatches + Correct(b);
    if Closes(idx, L) then WindowState(0.0, 0, w.log + Flush(offset + idx, tempLossValue, tempMatches, batchSize, L))
    else WindowState(tempLossValue, tempMatches, w.log)
  }

  /** The window state after the first `k` batches of the pass. */
  function WindowAfter(offset: int, bs: seq<Batch>, batchSize: Pos, L: Pos, k: nat): WindowState
    requires k <= |bs|
  {
    if k == 0 then WindowState(0.0, 0, [])
    else WindowStep(offset, batchSize, L, WindowAfter(offset, bs, batchSize, L, k - 1), k - 1, bs[k - 1])
  }

  /** The batch before `end` closes window `m - 1`: its flush completes the `m`-th log and restarts the accumulators. */
  lemma FlushingStep(offset: int, bs: seq<Batch>, batchSize: Pos, L: Pos, w: WindowState, m: nat, start: nat, end: nat)
    requires m > 0 && start == Times(m - 1, L) && start + L == end <= |bs| && Closes(end - 1, L)
    requires w == WindowState(LossSum(bs, start, end - 1), CorrectSum(bs, start, end - 1), FlushLog(offset, bs, batchSize, L, m - 1))
    ensures WindowStep(offset, batchSize, L, w, end - 1, bs[end - 1]) == WindowState(0.0, 0, FlushLog(offset, bs, batchSize, L, m))
  {
  }

  /** Any other batch only adds to the accumulators. */
  lemma AccumulatingStep(offset: int, bs: seq<Batch>, batchSize: Pos, L: Pos, w: WindowState, start: nat, end: nat)
    requires start < end <= |bs| && !Closes(end - 1, L)
    requires w.tempLossValue == LossSum(bs, start, end - 1) && w.tempMatches == CorrectSum(bs, start, end - 1)
    ensures WindowStep(offset, batchSize, L, w, end - 1, bs[end - 1]) ==
            WindowState(LossSum(bs, start, end), CorrectSum(bs, start, end), w.log)
  {
  }

  /**
   * After `k` batches, of which the first `m` windows (ending at `start`)
   * are complete, those `m` windows have been flushed into the log and the
   * accumulators hold the sums over the batches since the last flush.
   */
  lemma {:induction false} WindowMeaning(offset: int, bs: seq<Batch>, batchSize: Pos, L: Pos, k: nat, m: nat, start: nat)
    requires k <= |bs| && start == Times(m, L) && start <= k < start + L
    ensures WindowAfter(offset, bs, batchSize, L, k) ==
            WindowState(LossSum(bs, start, k), CorrectSum(bs, start, k), FlushLog(offset, bs, batchSize, L, m))
    decreases k, 1
  {
    if k == start && m > 0 {
      WindowAtFlush(offset, bs, batchSize, L, k, m, start);
    } else if k > start {
      WindowInside(offset, bs, batchSize, L, k, m, start);
    }
  }

  /** The inductive step for a batch that closes window `m - 1`. */
  lemma {:induction false} WindowAtFlush(offset: int, bs: seq<Batch>, batchSize: Pos, L: Pos, k: nat, m: nat, start: nat)
    requires k <= |bs| && start == Times(m, L) && k == start && m > 0
    ensures WindowAfter(offset, bs, batchSize, L, k) ==
            WindowState(LossSum(bs, start, k), CorrectSum(bs, start, k), FlushLog(offset, bs, batchSize, L, m))
    decreases k, 0
  {
    var prev := Times(m - 1, L);
    WindowMeaning(offset, bs, batchSize, L, k - 1, m - 1, prev);
    MultipleOfTimes(m, L);
    FlushingStep(offset, bs, batchSize, L, WindowAfter(offset, bs, batchSize, L, k - 1), m, prev, k);
  }

  /** The inductive step for a batch that does not close a window. */
  lemma {:induction false} WindowInside(offset: int, bs: seq<Batch>, batchSize: Pos, L: Pos, k: nat, m: nat, start: nat)
    requires k <= |bs| && start == Times(m, L) && start < k < start + L
    ensures WindowAfter(offset, bs, batchSize, L, k) ==
            WindowState(LossSum(bs, start, k), CorrectSum(bs, start, k), FlushLog(offset, bs, batchSize, L, m))
    decreases k, 0
  {
    WindowMeaning(offset, bs, batchSize, L, k - 1, m, start);
    NotMultipleInside(m, L, k);
    AccumulatingStep(offset, bs, batchSize, L, WindowAfter(offset, bs, batchSize, L, k - 1), start, k);
  }

  /** At the end of the pass the log holds one flush per full window. */
  lemma WindowPassMeaning(epoch: nat, bs: seq<Batch>, batchSize: Pos, L: Pos)
    ensures WindowAfter(epoch * |bs|, bs, batchSize, L, |bs|).log == TrainLog(epoch, bs, batchSize, L)
  {
    WindowOf(|bs|, L);
    WindowMeaning(epoch * |bs|, bs, batchSize, L, |bs|, |bs| / L, Times(|bs| / L, L));
  }

  /**
   * The training pass of one slot in epoch `epoch` (lines 234-274): running
   * totals, the window flushed every `logInterval` batches, and the epoch
   * figures. `f1(y_pred, y_true)` stands for `f1_score(..., average='macro')`.
   */
  method TrainEpoch(epoch: nat, bs: Batches, batchSize: Pos, logInterval: Pos, f1: (seq<int>, seq<int>) -> real)
    returns (trainLoss: real, trainAcc: real, trainF1: real, log: seq<Event>)
    ensures trainLoss == MeanLoss(bs)
    ensures trainAcc == Accuracy(bs, batchSize)
    ensures trainF1 == f1(AllPreds(bs, |bs|), AllLabels(bs, |bs|))
    ensures log == TrainLog(epoch, bs, batchSize, logInterval)
    ensures DropLast(bs, batchSize) ==> 0.0 <= trainAcc <= 1.0
  {
    var L := logInterval;
    var lossValue, matches := 0.0, 0;
    var tempLossValue, tempMatches := 0.0, 0;
    var yTrue, yPred := [], [];
    log := [];
    for idx := 0 to |bs|
      invariant lossValue == LossSum(bs, 0, idx) && matches == CorrectSum(bs, 0, idx)
      invariant yTrue == AllLabels(bs, idx) && yPred == AllPreds(bs, idx)
      invariant WindowState(tempLossValue, tempMatches, log) == WindowAfter(epoch * |bs|, bs, batchSize, L, idx)
    {
      MultipleOfIsMod(idx + 1, L);
      var b := bs[idx];
      yTrue := yTrue + b.labels;
      yPred := yPred + b.preds;
      var correct := MatchCount(b.labels, b.preds);
      lossValue := lossValue + b.loss;
      tempLossValue := tempLossValue + b.loss;
      matches := matches + correct;
      tempMatches := tempMatches + correct;
      if (idx + 1) % L == 0 {
        var tempTrainLoss := tempLossValue / L as real;
        var tempTrainAcc := tempMatches as real / batchSize as real / L as real;
        var step := epoch * |bs| + idx;
        log := log + [Scalar(TrainLossTag, tempTrainLoss, step), Scalar(TrainAccuracyTag, tempTrainAcc, step)];
        tempLossValue, tempMatches := 0.0, 0;
      }
    }
    WindowPassMeaning(epoch, bs, batchSize, L);
    ProductPositive(batchSize, |bs|);
    trainLoss := lossValue / |bs| as real;
    trainAcc := matches as real / (batchSize * |bs|) as real;
    trainF1 := f1(yPred, yTrue);
    if DropLast(bs, batchSize) {
      AccuracyInUnitInterval(bs, batchSize);
    }
  }

  // ---------------------------------------------------------------------
  // The validation pass (lines 287-317)
  // ---------------------------------------------------------------------

  /**
   * The validation pass of one slot: per-batch loss and correct-count items
   * collected in lists and summed at the end.
   */
  method Validate(bs: Batches, validBatchSize: Pos, f1: (seq<int>, seq<int>) -> real)
    returns (valLoss: real, valAcc: real, valF1: real)
    requires |bs[0].labels| >= FigureSize
    ensures valLoss == MeanLoss(bs)
    ensures valAcc == Accuracy(bs, validBatchSize)
    ensures valF1 == f1(AllPreds(bs, |bs|), AllLabels(bs, |bs|))
    ensures DropLast(bs, validBatchSize) ==> 0.0 <= valAcc <= 1.0
  {
    var valLossItems: seq<real>, valAccItems: seq<int> := [], [];
    var yTrue, yPred := [], [];
    for k := 0 to |bs|
      invariant |valLossItems| == |valAccItems| == k
      invariant forall j :: 0 <= j < k ==> valLossItems[j] == bs[j].loss && valAccItems[j] == Correct(bs[j])
      invariant Sum(valLossItems) == LossSum(bs, 0, k) && IntSum(valAccItems) == CorrectSum(bs, 0, k)
      invariant yTrue == AllLabels(bs, k) && yPred == AllPreds(bs, k)
    {
      var b := bs[k];
      yTrue := yTrue + b.labels;
      yPred := yPred + b.preds;
      var lossItem := b.loss;
      var accItem := MatchCount(b.labels, b.preds);
      assert (valLossItems + [lossItem])[..k] == valLossItems;
      assert (valAccItems + [accItem])[..k] == valAccItems;
      valLossItems := valLossItems + [lossItem];
      valAccItems := valAccItems + [accItem];
    }
    ProductPositive(validBatchSize, |bs|);
    valLoss := Sum(valLossItems) / |bs| as real;
    valAcc := IntSum(valAccItems) as real / (validBatchSize * |bs|) as real;
    valF1 := f1(yPred, yTrue);
    if DropLast(bs, validBatchSize) {
      AccuracyInUnitInterval(bs, validBatchSize);
    }
  }
}
